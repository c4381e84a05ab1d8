# Verified model of the NapsterTec engine's stateful cores

This project models the parts of the repository that keep long-lived state and promise something about it over time, and
proves those promises for every input, every interleaving and every run. `dafny verify dfyconfig.toml` checks all of it.

## What is modelled

**The mission execution state machine** (`Mission*.dfy`). One mission record moves through the chain decision,
materialization, execution request, delegation, worker claim, artifact lineage, with retries, replans, approval gates,
quarantine and a completion guard. Every lock-held method of the coordinator, the materializer, the reconciler and the
engine is one atomic step: a function in `MissionSteps` and a step-by-step method of the class in `MissionRegistry` or
`MissionDispatcher`, proved equal. `MissionInvariant` states the inductive invariant: there is one chain of decisions,
only its newest member can be unfinished, and at most one request and one delegation are active. Every step keeps it
(`MissionSafety`, `MissionSettling`, `MissionBootstrap`), so along every run (`MissionRuns`) the repository's own
validator, modelled clause by clause in `MissionValidator`, stays silent. A run may interleave bootstrap, approval,
rejection, revocation, claims, delegation, work, completion, failure, reconciliation, outcomes, pausing and resuming in
any order; its only conditions (`MissionRuns.Legal`) are that generated ids are new, that a failure report names an
active delegation, and that dispatch fails only for a request without a delegation. `MissionBounds`, `MissionGates`,
`MissionEvidence`, `MissionLiveness` and `MissionAcquisition` prove what follows over whole runs; `MissionUnsafe` says
exactly when the three operations outside the safe set leave a sound record.

**The budget ledger** (`Finance*.dfy`, `MapSum.dfy`). Budgets, allocations, reservations, commitments and spends are
dictionaries of records; each operation reloads the stored state, re-validates and re-derives it, changes it and appends
one ledger entry. `FinanceViews` gives three independent accounts of the same money (the stored balances, the sums over
the live records, the replayed ledger) for every objective and every mission, and the run theorems say that they always
agree. The only conditions on a run (`FinanceRuns.Legal`) are that generated ids are new and that objectives carry ids of
the admitted shape. `FinanceRepository` is the object with its in-place updates,
`FinanceWitnesses` the runs in which the numbers mislead.

**Optimistic manifest commit** (`Workspace*.dfy`). Compare-and-swap on revision and manifest hash, followed by the
delete-then-upsert of file rows, the staged-object checks and the rollback, over mutable tables; then all interleavings
of commits, staging, cleanup and approvals.

**Objective counters under compare-and-swap** (`Objective*.dfy`). The named operations read an objective in one step and
write it in another, the generic update replaces any fields at once; any number of callers interleave.

**Smaller cores.** The two-row edit distance (`EditDistance.dfy`), the capability router with its cooldown table
(`Router.dfy`), the agent loop (`AgentEvidence.dfy`, `AgentLoop.dfy`), the citation registry (`Citations.dfy`) and the
circuit breaker (`CircuitBreaker.dfy`).

## What the proofs found

- An artifact mission records at most one artifact, so it can be completed if and only if exactly one is required; with
  more, no run completes it (`MissionLiveness.ArtifactMissionCompletableExactly`).
- An acquisition mission can be completed whatever number of clients it requires, but only by outcomes of a qualifying
  source. The repository's only caller, the reaction to DEAL_WON events at app/engine/mission_engine.py:2229, names no
  source, so a mission fed by it alone is never completed (`MissionAcquisition.ReactionsNeverComplete`).
- A failure report for a delegation that is no longer active always escalates the mission, and the record stays sound if
  and only if nothing else is active; the same condition decides the stall detector and a terminal status set from
  outside, where a completion must also have met its criteria (`MissionUnsafe`). Every acquisition mission reaches a
  record that all three break within two steps (`MissionUnsafe.ExposedSoon`).
- The admission gate and the completion guard agree except for evidence of unknown source and, in the qualified-lead
  mode, unqualified entities of a non-lead artifact (`MissionGuard.AdmittedCountsExactly`). Both occur
  (`MissionGuard.AdmittedMayNotCount`), the second only under specifications that the repository does not derive.
- Between claiming a request and creating its delegation a mission has no runnable work in the sense of the state
  reconciler, which would then block it (`MissionSafety.RunnableWorkExactly`).
- An objective's `available_amount` subtracts money that is put to use twice. It equals what is really unallotted if and
  only if nothing is held or nothing is left, and OVER_BUDGET never means that money was overspent
  (`FinanceFindings.ObjectiveAvailabilityIsConservative`). `allocate_to_mission` hands back a stale
  `available_amount` exactly when it adds money to an existing allocation. Allocation keys are ambiguous exactly when one
  objective id continues another across an underscore, which the admitted shape of ids excludes. Runs for each are in
  `FinanceWitnesses`.
- A provider's cooldown follows the last mark of that provider, whatever its model: a later, shorter one ends a longer
  one for an unnamed model and for every other model. Only the model first marked keeps cooling, when it is asked for by
  name (`Router.CooldownRefinesLog`, `Router.LaterMarkEndsCooldown`).
- The generic objective update can move an objective out of a terminal status, which no named operation can, and does so
  if and only if the accepted changes name another status (`ObjectiveRuns.TerminalIsLeftExactly`).
- The comment at app/providers/health.py:47 says that a half-open circuit lets a single test request through. The code
  admits any number until a result is recorded; the model follows the code (`CircuitBreaker.HalfOpenAdmitsAll`).
- The agent loop looks up the workspace reader's `action` argument in a set, which raises on a list or an object. A run
  that meets one at the wrong moment ends with neither a completion nor a failure; exactly when is
  `AgentLoop.AbortsExactly`, three steps that do it are `AgentLoop.ListedActionAborts`.
- The agent loop treats a tool result that reports a failure without raising as a successful read, whose repetition is
  blocked and completes the run (`AgentLoop.RepeatCompletes`), and a report cut off at 12000 characters, like any other
  that carries no data, as a complete one (`AgentEvidence.DatalessReadSuffices`).

## Model

| member | source | states |
|---|---|---|
| MissionGuard.VerifiedSuccessIds | app/engine/mission_engine.py:652-718 | the loops collect exactly the qualifying identities, each once; their number is the verified count |
| MissionGuard.AdmittedCountsExactly | app/engine/mission_engine.py:1727-1780 | evidence the admission gate lets through counts in the guard if and only if its source is known and it is not an unqualified non-lead in qualified-lead mode |
| MissionGuard.AdmittedMayNotCount | app/engine/mission_engine.py:1727-1780 | both exceptions occur: evidence of unknown source in the structural mode, for every artifact type, and evidence on an unqualified entity in the qualified-lead mode, for every type but leads |
| MissionGuard.RefusedNeverCounts | app/engine/mission_engine.py:1733-1776 | evidence with an id and a verification that the gate refuses would not have counted either |
| MissionGuard.CountedAtMostLineage | app/engine/mission_engine.py:679-718 | the guard never counts more artifacts than the lineage holds |
| MissionValidator.Validate | app/engine/mission_engine.py:794-888 | the validator's loops raise a code if and only if its declarative condition holds of the record |
| MissionInvariant.InvariantSatisfiesValidator | app/engine/mission_engine.py:787-888 | the single-active-chain invariant implies that no HIGH or CRITICAL code is raised |
| MissionInvariant.DelegationsAreDistinct | app/engine/mission_engine.py:1019-1029 | active and past delegations never share an id or a request |
| MissionSafety.CreateEstablishes | app/engine/mission_engine.py:590-621 | a newly created mission satisfies the invariant |
| MissionSafety.ClaimReadyRequestKeeps | app/engine/mission_engine.py:985-999 | claiming the ready request keeps the invariant |
| MissionSafety.CreateDelegationKeeps | app/engine/mission_engine.py:1001-1044 | creating a delegation keeps the invariant; a request gets at most one |
| MissionSafety.ClaimDelegationKeeps | app/engine/mission_engine.py:1046-1082 | claiming a pending delegation keeps the invariant |
| MissionSafety.MarkRunningKeeps | app/engine/mission_engine.py:1084-1095 | marking a delegation running keeps the invariant |
| MissionSafety.FailDispatchKeeps | app/engine/mission_engine.py:1150-1167 | failing a request whose delegation could not be created keeps the invariant |
| MissionSafety.EnsureTruthfulKeeps | app/engine/mission_engine.py:975-979 | blocking a mission without runnable work keeps the invariant |
| MissionSafety.RunnableWorkExactly | app/engine/mission_engine.py:944-957 | in a sound mission work is runnable if and only if a request is active and not merely claimed |
| MissionSafety.ApproveKeeps | app/engine/mission_engine.py:1619-1655 | approval keeps the invariant: it releases the newest materialization with one request |
| MissionSafety.RejectKeeps | app/engine/mission_engine.py:1657-1672 | rejection keeps the invariant |
| MissionSafety.RevokeKeeps | app/engine/mission_engine.py:1674-1700 | revocation keeps the invariant: it blocks the one undelegated request |
| MissionSafety.RevocableIsNewest | app/engine/mission_engine.py:1674-1700 | what can be revoked is the newest materialization, with no delegation |
| MissionSafety.UpdateStatusKeeps | app/engine/mission_engine.py:623-638 | pausing and resuming keep the invariant |
| MissionSettling.FailKeeps | app/engine/mission_engine.py:1875-2003 | failure of an active delegation, with its retry or escalation, keeps the invariant |
| MissionSettling.CompletionKeeps | app/engine/mission_engine.py:1702-1873 | a completion report, admitted or turned into a failure, keeps the invariant |
| MissionSettling.CriteriaStayMet | app/engine/mission_engine.py:720-732 | more evidence never makes met criteria unmet |
| MissionSettling.RecordOutcomeKeeps | app/engine/mission_engine.py:2005-2031 | recording success evidence keeps the invariant |
| MissionSteps.AnotherPassUsesAStrategy | app/engine/mission_engine.py:1519-1548 | the bootstrap recurses only by using up one of the allowed repetitions of the strategy, so it ends |
| MissionBootstrap.AdvanceKeeps | app/engine/mission_engine.py:1554-1612 | deciding on the first open milestone and materializing it keeps the invariant |
| MissionBootstrap.ReplanKeeps | app/engine/mission_engine.py:1530-1548 | activating the next plan keeps the invariant |
| MissionBootstrap.FinishKeeps | app/engine/mission_engine.py:1489-1549 | the end of a plan, by completion, escalation or replan, keeps the invariant |
| MissionBootstrap.BootstrapKeeps | app/engine/mission_engine.py:1471-1617 | the whole bootstrap, with its recursion, keeps the invariant |
| MissionRuns.RunsAreSound | app/engine/mission_engine.py:787-888 | along every run of the safe operations the validator is silent and the truth resolver reports neither ghost running nor a broken execution |
| MissionBounds.InvariantBoundsWork | app/engine/mission_engine.py:745-767 | replans, batches, strategies and archived plans are equal in number and at most MAX_REPEATED_STRATEGIES; materializations, requests and delegations are bounded by one another |
| MissionBounds.RunsAreBounded | app/engine/mission_engine.py:1519-1548 | those bounds hold after every run |
| MissionGates.OutreachWasApproved | app/engine/mission_engine.py:1209-1246 | every delegation to the communication agent, active or past, was preceded by an approval of its materialization that took effect |
| MissionGates.ClaimedOutreachWasApproved | app/engine/mission_engine.py:1046-1082 | every worker claim belongs to a delegation on record, and if that is one to the communication agent, an approval of its materialization took effect before |
| MissionGates.RefusalIsFinal | app/engine/mission_engine.py:1657-1700 | after an effective rejection or revocation no delegation for that materialization ever exists again |
| MissionEvidence.VerifiedCountNeverDecreases | app/engine/mission_engine.py:650-732 | the verified count never decreases along a run |
| MissionEvidence.CompletionIsSoundAndStable | app/engine/mission_engine.py:1489-1505 | a completed mission has at least the required number of distinct identities, then and for good |
| MissionEvidence.ArtifactMissionYieldsAtMostOne | app/engine/mission_engine.py:1507-1512 | an artifact mission records at most one artifact, so completion implies that one was required |
| MissionEvidence.RecordedArtifactsCount | app/engine/mission_engine.py:1726-1835 | every recorded artifact of known source in an artifact mission counts in the guard |
| MissionAcquisition.AcquisitionCompletableExactly | app/engine/mission_engine.py:2005-2031 | a run that records given outcomes can complete an acquisition mission if and only if they leave the required number of distinct clients on record, each won, verified and of a qualifying source |
| MissionAcquisition.AcquisitionCompletable | app/engine/mission_engine.py:1471-1617 | however many clients are required, some run completes the mission |
| MissionAcquisition.CompletionTakesWonClients | app/engine/mission_engine.py:707-718 | a run that completes the mission has recorded at least the required number of distinct qualifying clients |
| MissionAcquisition.ReactionsNeverComplete | app/engine/mission_engine.py:2229-2240 | a mission whose outcomes all come from the reaction to DEAL_WON events is never completed, because that names no source |
| MissionAcquisition.OutcomesOfRun | app/engine/mission_engine.py:2005-2031 | the outcomes on record are the recorded ones, one for each identity, and nothing else changes them |
| MissionLiveness.ArtifactMissionCompletableExactly | app/engine/mission_engine.py:1489-1512 | some run completes an artifact mission if and only if exactly one artifact is required |
| MissionUnsafe.TerminalUpdateSafeExactly | app/engine/mission_engine.py:623-638 | a terminal status set from outside leaves a sound record if and only if no work is active and a completion is backed |
| MissionUnsafe.StaleFailureSafeExactly | app/engine/mission_engine.py:1875-2003 | a stale failure report escalates, and leaves a sound record if and only if no request is active |
| MissionUnsafe.ExposedSoon | app/engine/mission_engine.py:623-638 | after at most two steps of any acquisition mission its record is sound and every terminal status set from outside, every stale failure report and the stall detector's escalation leave it unsound |
| MissionUnsafe.StallEscalationSafeExactly | app/engine/mission_engine.py:1306-1316 | the stall detector's escalation leaves a sound record if and only if no request is active |
| MissionRegistry.MissionRegistry.CreateMission | app/engine/mission_engine.py:590-621 | files exactly the created mission, which satisfies the invariant if its specification is a derived one |
| MissionRegistry.MissionRegistry.UpdateMissionStatus | app/engine/mission_engine.py:623-638 | replaces exactly that mission by the updated one; pausing and resuming keep the invariant |
| MissionRegistry.MissionRegistry.ClaimReadyRequest | app/engine/mission_engine.py:985-999 | claims the first ready request of an active mission, or changes nothing; keeps the invariant |
| MissionRegistry.MissionRegistry.CreateDelegation | app/engine/mission_engine.py:1001-1044 | returns the existing delegation or creates the one for a claimed request, idempotently; keeps the invariant if the id is new |
| MissionRegistry.MissionRegistry.ClaimPendingDelegation | app/engine/mission_engine.py:1046-1082 | claims the first pending delegation for a worker, or returns the claim already held; keeps the invariant if the id is new |
| MissionRegistry.MissionRegistry.MarkDelegationRunning | app/engine/mission_engine.py:1084-1095 | succeeds exactly for a claimed or running active delegation; keeps the invariant |
| MissionRegistry.MissionRegistry.ApproveMaterialization | app/engine/mission_engine.py:1619-1655 | applies the approval step exactly when it is allowed; keeps the invariant if the id is new |
| MissionRegistry.MissionRegistry.RejectMaterialization | app/engine/mission_engine.py:1657-1672 | applies the rejection step exactly when it is allowed; keeps the invariant |
| MissionRegistry.MissionRegistry.RevokeMaterialization | app/engine/mission_engine.py:1674-1700 | applies the revocation step exactly when it is allowed; keeps the invariant |
| MissionRegistry.MissionRegistry.ProcessDelegationCompletion | app/engine/mission_engine.py:1702-1873 | gate, acceptance and failure path amount to the completion step; keeps the invariant if the id is new |
| MissionRegistry.MissionRegistry.ProcessExecutionFailure | app/engine/mission_engine.py:1875-2003 | classification, retry and escalation amount to the failure step; keeps the invariant for an active delegation and a new id |
| MissionRegistry.MissionRegistry.RecordSuccessEvidence | app/engine/mission_engine.py:2005-2031 | records an outcome once per identity; keeps the invariant |
| MissionRegistry.MissionRegistry.BootstrapMission | app/engine/mission_engine.py:1471-1617 | the bootstrap loop saves exactly the record of the recursive bootstrap; keeps the invariant if the ids are new |
| MissionRegistry.MissionRegistry.QuarantineUnsafeMissions | app/engine/mission_engine.py:901-935 | from any registry, exactly the active missions with findings are quarantined, and every mission still active has none |
| MissionRegistry.QuarantineStopsWork | app/engine/mission_engine.py:914-933 | a quarantined mission has no active request, no active delegation and no ACTIVE claim |
| MissionRegistry.QuarantineKeepsRecords | app/engine/mission_engine.py:914-929 | a quarantine loses no request, claim or delegation |
| MissionDispatcher.HasRunnableWork | app/engine/mission_engine.py:944-957 | the loop over the requests decides whether any work can run |
| MissionDispatcher.RoundTakesOne | app/engine/mission_engine.py:1139-1167 | a round of the dispatcher leaves fewer ready requests, even in a corrupted mission |
| MissionDispatcher.RoundDelegates | app/engine/mission_engine.py:1139-1146 | the ready request of a sound mission has no delegation and gets one, and no other request is ready |
| MissionDispatcher.MissionExecutionDispatcher.ProcessReadyRequests | app/engine/mission_engine.py:1134-1167 | the dispatch loop ends with nothing ready; a sound mission gets exactly one delegation for its one ready request, and stays sound if the id is new |
| FinanceModel.SafeMoney | app/schemas/finance.py:30-37 | an amount is accepted if and only if it is finite, non-negative and fits 28 digits; the result is the cents rounded down |
| FinanceModel.NormalizeIdempotent | app/schemas/finance.py:27-28 | normalising a currency twice changes nothing |
| FinanceModel.KeysCollideExactly | app/repositories/finance_repository.py:103-103 | two allocation keys are equal if and only if the pairs are, or one objective id continues the other across an underscore |
| FinanceModel.AdmittedKeysAreDistinct | app/schemas/company_objective.py:45-45 | keys of admitted objective ids are unambiguous |
| FinanceInvariant.ReloadKeeps | app/repositories/finance_repository.py:36-45 | re-reading a good state refuses no record and changes no balance, record or entry |
| FinancePosting.PostedStored | app/repositories/finance_repository.py:166-173 | a posting moves exactly the balances of its mission and objective, by the same change |
| FinancePosting.PostedAgrees | app/repositories/finance_repository.py:166-184 | a posting whose records move like its balances keeps the three accounts in agreement |
| FinancePosting.RoomIsAvailability | app/schemas/finance.py:101-105 | what an objective allotted but does not hold is exactly the sum of its missions' available amounts |
| FinancePosting.RoomCovers | app/schemas/finance.py:62-66 | an objective holds at most what it allotted, which is at most its total |
| FinanceSafety.ActiveCovered | app/repositories/finance_repository.py:188-203 | a live reservation is covered by the reserved balances of its mission and its objective |
| FinanceSafety.UnsettledCovered | app/repositories/finance_repository.py:323-349 | an unsettled commitment is covered by the committed balances |
| FinanceSafety.ReserveDone | app/repositories/finance_repository.py:149-154 | a reservation succeeds if and only if the allocation exists and covers a positive amount |
| FinanceSafety.ReserveKeeps | app/repositories/finance_repository.py:142-186 | reserving keeps the ledger good |
| FinanceSafety.ReleaseDone | app/repositories/finance_repository.py:188-220 | a release succeeds if and only if the reservation is live |
| FinanceSafety.ReleaseKeeps | app/repositories/finance_repository.py:188-220 | releasing keeps the ledger good |
| FinanceSafety.ConvertDone | app/repositories/finance_repository.py:222-272 | a conversion succeeds if and only if the reservation is live |
| FinanceSafety.ConvertKeeps | app/repositories/finance_repository.py:222-272 | converting keeps the ledger good |
| FinanceSafety.CommitDone | app/repositories/finance_repository.py:281-290 | a direct commitment succeeds if and only if it is covered and in the objective's currency |
| FinanceSafety.CommitKeeps | app/repositories/finance_repository.py:274-321 | a direct commitment keeps the ledger good |
| FinanceSafety.SpendDone | app/repositories/finance_repository.py:323-379 | a spend succeeds if and only if the commitment is unsettled and the amount is positive and within it |
| FinanceSafety.SpendKeeps | app/repositories/finance_repository.py:323-379 | spending keeps the ledger good; each commitment has at most one spend |
| FinanceOpening.AllocateDone | app/repositories/finance_repository.py:94-101 | an allocation succeeds if and only if the objective exists and its available amount covers it |
| FinanceOpening.AllocateKeeps | app/repositories/finance_repository.py:92-135 | allocating keeps the ledger good, for a new and for an existing allocation |
| FinanceOpening.CreateKeeps | app/repositories/finance_repository.py:64-86 | opening a budget keeps the ledger good |
| FinanceRuns.RunsAreGood | app/repositories/finance_repository.py:64-379 | every stored state of every run is good |
| FinanceRuns.NothingIsLostOnReload | app/repositories/finance_repository.py:36-45 | the empty-ledger fallback is never reached from a state this code wrote |
| FinanceRuns.ThreeAccountsAgree | app/repositories/finance_repository.py:343-378 | for every objective and mission, the replayed ledger, the sums over live records and the stored balances agree |
| FinanceRuns.MoneyIsConserved | app/schemas/finance.py:53-111 | total = unallotted + sum over missions of available, reserved, committed and spent; objective balances are the sums of mission balances |
| FinanceRuns.AcceptedExactly | app/repositories/finance_repository.py:64-379 | every operation succeeds if and only if its precondition, stated on the stored balances, holds; no validator refuses anything else |
| FinanceRuns.RunsFollow | app/repositories/finance_repository.py:64-379 | the ledger is append-only, and no record is lost or reopened along a run |
| FinanceRuns.ReservationsCloseOnce | app/repositories/finance_repository.py:188-272 | a reservation is released or converted at most once |
| FinanceRuns.CommitmentsAreSpentOnce | app/repositories/finance_repository.py:330-331 | a commitment is spent at most once |
| FinanceFindings.EventsMoveBalances | app/repositories/finance_repository.py:64-379 | an accepted operation moves exactly the balances it names by exactly its change and no others |
| FinanceFindings.ReleaseUndoesReserve | app/repositories/finance_repository.py:188-220 | reserve then release always succeeds and restores every balance |
| FinanceFindings.ConvertImitatesCommit | app/repositories/finance_repository.py:222-321 | reserve then convert leaves the balances of a direct commitment |
| FinanceFindings.SpendFreesTheRest | app/repositories/finance_repository.py:339-349 | the unspent part of a commitment becomes available again |
| FinanceFindings.ObjectiveAvailabilityIsConservative | app/schemas/finance.py:65-76 | exactly when the objective's available amount is what is unallotted, and exactly when it reads OVER_BUDGET |
| FinanceFindings.AllocateReturnsStaleExactly | app/repositories/finance_repository.py:104-107 | the returned allocation is up to date if and only if it is new or nothing was added |
| FinanceFindings.SharedKeyBreaksConservation | app/repositories/finance_repository.py:103-107 | under a shared key, allocating to one objective breaks the other's sum unless the amount is zero |
| FinanceFindings.SharedKeyExample | app/repositories/finance_repository.py:103-103 | two inadmissible ids that share a key |
| FinanceWitnesses.SharedKeyBreaksSums | app/repositories/finance_repository.py:103-107 | a run with those ids in which a second objective's allocation is accepted and the first one's sum no longer adds up |
| FinanceWitnesses.HoldingMisleads | app/schemas/finance.py:65-76 | runs for all amounts: with anything held the objective shows less than is unallotted unless all is allotted, and OVER_BUDGET if and only if more is held than is left, with nothing spent |
| FinanceWitnesses.SixOfTenMislead | app/schemas/finance.py:65-76 | two such runs: one unit shown available instead of four, and OVER_BUDGET with nothing spent |
| FinanceWitnesses.SecondAllocationIsStale | app/repositories/finance_repository.py:104-107 | runs for all amounts in which a second allocation hands back a stale one |
| FinanceRepository.FinanceRepository.GetObjectiveBudget | app/repositories/finance_repository.py:88-90 | the budget returned has exactly the balances the ledger replays to |
| FinanceRepository.FinanceRepository.CreateObjectiveBudget | app/repositories/finance_repository.py:64-86 | persists exactly the specified state or nothing, and keeps the ledger good |
| FinanceRepository.FinanceRepository.AllocateToMission | app/repositories/finance_repository.py:92-135 | persists exactly the specified state or nothing, and keeps the ledger good |
| FinanceRepository.FinanceRepository.Reserve | app/repositories/finance_repository.py:142-186 | persists exactly the specified state or nothing, and keeps the ledger good |
| FinanceRepository.FinanceRepository.ReleaseReservation | app/repositories/finance_repository.py:188-220 | persists exactly the specified state or nothing, and keeps the ledger good |
| FinanceRepository.FinanceRepository.ConvertReservationToCommitment | app/repositories/finance_repository.py:222-272 | persists exactly the specified state or nothing, and keeps the ledger good |
| FinanceRepository.FinanceRepository.RecordDirectCommitment | app/repositories/finance_repository.py:274-321 | persists exactly the specified state or nothing, and keeps the ledger good |
| FinanceRepository.FinanceRepository.RecordSpend | app/repositories/finance_repository.py:323-379 | persists exactly the specified state or nothing, and keeps the ledger good |
| WorkspaceModel.DesiredNames | app/repositories/engineering_workspace_repository.py:201-220 | the requested file map has exactly the named paths |
| WorkspaceRepository.FilesAssembled | app/repositories/engineering_workspace_repository.py:198-220 | deleting the unwanted rows and writing the wanted ones is replacing the workspace's files |
| WorkspaceRepository.WorkspaceRepository.WorkspaceStorageState | app/repositories/engineering_workspace_repository.py:130-156 | returns the revision, the hash and exactly the owner's rows, or reports that the workspace is missing |
| WorkspaceRepository.WorkspaceRepository.Upsert | app/repositories/engineering_workspace_repository.py:204-220 | the upsert loop builds exactly the requested rows and detects a new path written twice |
| WorkspaceRepository.WorkspaceRepository.ReconcileFiles | app/repositories/engineering_workspace_repository.py:191-220 | the reconcile equals replacing the file map, or fails a constraint |
| WorkspaceRepository.WorkspaceRepository.CommitWorkspaceManifest | app/repositories/engineering_workspace_repository.py:158-276 | commits the whole specified change or rolls back to the exact tables before |
| WorkspaceRepository.WorkspaceRepository.RecordPendingStagedObjects | app/repositories/engineering_workspace_repository.py:278-325 | stages all objects or none; a committed object conflicts |
| WorkspaceRepository.WorkspaceRepository.ConsumeExecutionApproval | app/repositories/engineering_workspace_repository.py:455-470 | consumes exactly a required approval |
| WorkspaceRuns.HistoryIsLinear | app/repositories/engineering_workspace_repository.py:179-272 | the revision counts the landed commits, each made against its predecessor; hash, files and row revisions are the last one's |
| WorkspaceRuns.FilesReplaced | app/repositories/engineering_workspace_repository.py:191-220 | a landed commit replaces its workspace's files and no other's |
| WorkspaceRuns.OneWinner | app/repositories/engineering_workspace_repository.py:181-185 | of any interleaved commits against the same revision at most one succeeds |
| WorkspaceRuns.ComparisonIsExact | app/repositories/engineering_workspace_repository.py:181-185 | the comparison succeeds if and only if no commit landed since the caller read |
| WorkspaceRuns.RecoveryIsSound | app/services/supabase_workspace_storage.py:394-404 | seeing the next revision with one's own hash after a lost acknowledgement means that a commit with that hash landed and its files are stored |
| WorkspaceRuns.CommittedStaysCommitted | app/repositories/engineering_workspace_repository.py:278-325 | a committed staged object stays committed until a cleanup names it, and is never staged again before |
| WorkspaceRuns.PendingStaysRegistered | app/repositories/engineering_workspace_repository.py:226-242 | what an execution recorded as pending passes the registration check of its commit |
| WorkspaceRuns.ApprovalConsumedOnce | app/repositories/engineering_workspace_repository.py:455-470 | an approval is consumed at most once |
| EditDistance.Distance | scripts/benchmark_director_stt.py:19-30 | the two-row loops compute the recursive edit distance |
| EditDistance.DistanceIsCheapest | scripts/benchmark_director_stt.py:19-30 | that distance is the length of a shortest chain of single insertions, deletions and substitutions |
| EditDistance.ShortestChain | scripts/benchmark_director_stt.py:19-30 | a chain of that length exists |
| EditDistance.ChainsAreNoShorter | scripts/benchmark_director_stt.py:19-30 | no chain is shorter |
| EditDistance.ZeroIffEqual | scripts/benchmark_director_stt.py:19-30 | the distance is zero if and only if the texts are equal |
| EditDistance.Symmetric | scripts/benchmark_director_stt.py:19-30 | the distance is symmetric |
| EditDistance.Triangle | scripts/benchmark_director_stt.py:19-30 | the distance satisfies the triangle inequality |
| EditDistance.Bounds | scripts/benchmark_director_stt.py:19-30 | it lies between the difference of the lengths and the longer length |
| ObjectiveRuns.RunsAreConsistent | app/repositories/company_objective_repository.py:162-191 | a version names one value: a caller that finds the version it read finds the objective it read |
| ObjectiveRuns.NoUpdateIsLost | app/repositories/company_objective_repository.py:162-287 | between any two points the version grows by exactly the successful updates, and each counter and the links by exactly the successful calls unless a generic update replaced them; a terminal status changes only if one names the status |
| ObjectiveRuns.LimitsHold | app/schemas/company_objective.py:75-99 | limits hold, links stay distinct and bounded, and COMPLETED implies enough verified successes |
| ObjectiveRuns.WritesConflictExactly | app/repositories/company_objective_repository.py:178-187 | an update conflicts if and only if another succeeded since the read; otherwise it succeeds exactly when the objective can afford it |
| ObjectiveRuns.GenericWritesConflictExactly | app/repositories/company_objective_repository.py:177-178 | a generic update conflicts if and only if it names the version read and another update succeeded since |
| ObjectiveRuns.TerminalIsLeftExactly | app/repositories/company_objective_repository.py:162-191 | a terminal objective changes its status at some later point if and only if some accepted generic update names another status |
| ObjectiveRuns.CancelledIsRevived | app/repositories/company_objective_repository.py:162-191 | a run in which a cancelled objective is made active again |
| ObjectiveRepository.ObjectiveRepository.Create | app/repositories/company_objective_repository.py:142-151 | adds an objective of version one, once |
| ObjectiveRepository.ObjectiveRepository.Update | app/repositories/company_objective_repository.py:162-191 | replaces any fields of one entry, giving it the next version, or none: not the immutable ones, not against another version, not if the validator refuses |
| ObjectiveRepository.ObjectiveRepository.LinkMission | app/repositories/company_objective_repository.py:193-207 | links a new mission to a live objective below its limit |
| ObjectiveRepository.ObjectiveRepository.UpdateStatus | app/repositories/company_objective_repository.py:209-227 | changes the status unless the objective is terminal in another one |
| ObjectiveRepository.ObjectiveRepository.TerminalTransition | app/repositories/company_objective_repository.py:229-242 | requires a terminal status and a reason |
| ObjectiveRepository.ObjectiveRepository.SetVerifiedSuccessCount | app/repositories/company_objective_repository.py:244-256 | stores a non-negative count the objective can afford |
| ObjectiveRepository.ObjectiveRepository.RecordStrategyChange | app/repositories/company_objective_repository.py:258-273 | counts a strategy change and a strategy version below the limit |
| ObjectiveRepository.ObjectiveRepository.RecordZeroProgressCycle | app/repositories/company_objective_repository.py:275-287 | counts a zero-progress cycle below the limit |
| Router.SortIsStable | app/router/engine.py:124-139 | the sort is a permutation in rank order that keeps the order within each rank |
| Router.StableOrderIsUnique | app/router/engine.py:138-138 | those properties determine the list |
| Router.EligibleIsTheStableOrder | app/router/engine.py:98-139 | the eligible list is the one stable, rank-sorted arrangement of the capable providers |
| Router.CooldownRefinesLog | app/router/engine.py:77-96 | a model is cooling down if and only if the last mark of its provider or, if named, of that model still runs |
| Router.LaterMarkEndsCooldown | app/router/engine.py:77-96 | a later, shorter mark ends the cooldown of an unnamed model and of every model but the one first marked, which keeps cooling when asked for by name |
| Router.StreamStopsAtFirst | app/router/engine.py:167-250 | the caller receives the partial streams of the failed providers, then the whole stream of the first that serves |
| Router.CapabilityRouter.RegisterProvider | app/router/engine.py:34-36 | registering a known name replaces the provider in place |
| Router.CapabilityRouter.MarkCooldown | app/router/engine.py:90-96 | marks the model and the provider, for at least a second |
| Router.CapabilityRouter.RouteSkillExecution | app/router/engine.py:141-250 | the failover loop yields that stream, succeeds if and only if some eligible provider serves under the table it is checked against, and records each rate limit, with any rate limits recorded by other calls while it waits |
| Router.DecidedAtEntry | app/router/engine.py:167-250 | unless another call marks a provider meanwhile, that provider is treated as the table at entry says |
| AgentEvidence.EvidenceIsSufficient | app/agent/execution_loop.py:564-582 | the two-pass check decides what one backward scan for the last inspection says, and raises if and only if it meets an action that cannot be hashed: one whose report carries data, or one after the last incomplete read and before anything that makes up for it |
| AgentEvidence.SufficientExactly | app/agent/execution_loop.py:564-582 | evidence that does not make the check raise suffices if and only if there is some and its last inspection is absent or not an incomplete read |
| AgentEvidence.DatalessReadSuffices | app/agent/execution_loop.py:540-582 | a file read that brought no data, because it was cut off, reported a failure or raised, makes up for every incomplete one before it |
| AgentLoop.RunKeeps | app/agent/execution_loop.py:88-250 | every run has at most 15 numbered steps that answer the model and the tools, blocks only at the end, and never has a read-only call return twice |
| AgentLoop.EndsExactly | app/agent/execution_loop.py:88-250 | whether a run completes, fails or is aborted, and where, read off the history it ends with |
| AgentLoop.AbortsExactly | app/agent/execution_loop.py:540-582 | a run is aborted if and only if some evidence it checks has an unhashable action after the last incomplete read and before anything that makes up for it, or it observes data reported to such an action |
| AgentLoop.HashableActionsNeverAbort | app/agent/execution_loop.py:540-582 | no run is aborted in which every workspace action can be hashed, as texts can |
| AgentLoop.ListedActionAborts | app/agent/execution_loop.py:564-582 | three steps that abort a run: a partial read, an action given as a list, and no action |
| AgentLoop.ClosesExactlyOnce | app/agent/execution_loop.py:88-250 | the events end in exactly one completion or failure, or contain neither if and only if the run was aborted |
| AgentLoop.TranscriptShape | app/agent/execution_loop.py:88-250 | one initialization, then numbered updates in order, at most four a step |
| AgentLoop.RepeatCompletes | app/agent/execution_loop.py:125-176 | repeating a read-only call that returned, whatever its report says, is blocked and completes the run |
| AgentLoop.AutonomousAgentLoop.ExecuteToolWithRecovery | app/agent/execution_loop.py:314-333 | at most three attempts, an error if and only if all of them raise, else the first result |
| AgentLoop.AutonomousAgentLoop.Perform | app/agent/execution_loop.py:125-213 | a read-only call is blocked if and only if it returned before; aborted if and only if checking its observation raises |
| AgentLoop.AutonomousAgentLoop.Iterate | app/agent/execution_loop.py:91-239 | one iteration records the next trace of the run or ends it, and emits exactly its updates |
| AgentLoop.AutonomousAgentLoop.ExecuteGoal | app/agent/execution_loop.py:88-250 | the loop produces exactly the specified run, its events and its memory of successful calls |
| Citations.KeysDiffer | app/planner/deep_research_planner.py:104-104 | different numbers give different keys |
| Citations.RegisterAllKeeps | app/planner/deep_research_planner.py:102-114 | registering keeps known URLs and their order, adds every cited URL once and nothing else |
| Citations.NeverRebinds | app/planner/deep_research_planner.py:98-123 | across any sequence of merges the registry stays one number per URL and never rebinds one |
| Citations.DeepResearchPlanner.MergeCitations | app/planner/deep_research_planner.py:98-123 | remapped results cite the URL their local key declared; undeclared keys are kept |
| Citations.DeepResearchPlanner.RegisterUrl | app/planner/deep_research_planner.py:103-114 | returns the URL's one global key |
| CircuitBreaker.CircuitBreaker.IsHealthy | app/providers/health.py:34-48 | open admits if and only if the timeout has passed since the last recorded failure; closed and half-open always admit |
| CircuitBreaker.CircuitBreaker.RecordSuccess | app/providers/health.py:50-60 | keeps: not closed if and only if the failures counted reach the threshold, and while closed they are the trailing failures of the whole history |
| CircuitBreaker.CircuitBreaker.RecordFailure | app/providers/health.py:62-74 | keeps the same invariant; opens exactly when the threshold is reached or a test failed |
| CircuitBreaker.HalfOpenAdmitsAll | app/providers/health.py:47-48 | after the timeout every request is admitted until a result is recorded, however many there are |

## Left out

- Identifiers generated from uuid4 are parameters assumed to be new; those of missions are numbers, plan versions and milestone ids are the numbers behind `vN` and `mN`, and a materialization id is the id of its decision.
- Missing keys of the dictionaries that missions are stored as: the records have all their fields.
- Text and time fields, events, health labels, last errors and audit records of a mission; `target_count` and `discovery_scope` copies; report assembly.
- The derivation of a mission specification from text: `MissionSteps.SpecOk` states what the derivation yields.
- `is_entity_qualified` and the markers searched for in error texts are truth values of the evidence or the report.
- The validator's findings are the set of its codes; their number, order and detail texts are not modelled.
- Success evidence is identified by one id; the order in which the source looks for alternative keys is not modelled. A verified record replaces an unverified one as a whole; the source keeps those fields that the new record does not give.
- Failure reports that name an execution request without a delegation: no caller in the repository makes one.
- Those branches of the stall detector that only restart or block work, and `_advance_structural_canary_chain`, whose steps are the modelled ones in one order.
- Events on the event bus, logging, persistence to files, mutexes and asynchronous scheduling: each lock-held method is one atomic step.
- The worker loop of autonomous_worker.py is not modelled; it calls the modelled steps in one of the orders the run theorems cover.
- Amounts are exact reals on entry and whole cents afterwards; conversion of a Python float to text and other Decimal contexts are not modelled.
- FinanceModel.NormalizeIdempotent: does not model the upper-casing of letters outside ASCII, because that needs the Unicode tables; blanks are those of Python.
- Snapshots, CFO assessments and other readers of the ledger.
- Workspace rows carry no timestamps, generated row ids or object contents; foreign keys of conversations and processes are not modelled. Constraint violations are found when the rows are flushed, and are reported as one error.
- Races between cleanup of staged objects and commits are not guarded in the repository, and nothing is claimed about them beyond the commit status of an object.
- The derived `progress` percentage of an objective and its descriptive fields; values of the wrong type in a generic update.
- Provider signatures and the forwarding of routing hints; a caller that stops reading a stream early. The exception's text is reduced to the delay it mentions.
- Prompts, plans, reflections, confidence and the answer text of the agent loop; a reader that abandons the events of a run; a tool result that is not the result object the tool executor returns; numbers in arguments are kept as numerals; two calls with different tools or arguments are assumed to have different fingerprints, as with a hash without collisions.
- The planner hands out its registry by reference, so an earlier search output sees later citations; the model returns only the remapped results.
- The health manager's automatic registration of providers, and its wrapper, which records one result for each admitted call.
