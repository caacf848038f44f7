# Verified core of code_index

`code_index` keeps a code index in one SQLite file and coordinates agents that
edit the indexed files. This project models the parts of it whose correctness
spans many calls, and proves what they promise:

- **Claims and leases** (`AgentTables`, `Claims`, `ClaimLaws`, `ClaimEffects`,
  `ClaimLifetimes`, `AgentStore`, `ProtocolRuns`, `ProtocolLimits`, `FenceGrants`, `FenceOrder`): a fencing-token
  protocol over one table of claim rows that are overwritten in place. Safety is proved over
  every run of calls and clock ticks; where the code stops protecting its
  callers, the exact condition is proved, call by call and over whole runs.
- **Runs, blockers, swarms, the orchestrator** (`AgentRuns`, `AgentRunLaws`,
  `RunEffects`, `BlockerRuns`, `Swarm`, `SwarmLaws`, `SwarmRuns`, `SwarmEffects`,
  `Orchestrator`, `OrchestratorLaws`): blocker links that agree with run statuses, all-or-nothing
  children over whole passes and runs, parents reviewed over stopped children, and
  the dead-run rule.
- **The index** (`FileIndex`, `SymbolLaws`, `ChunkLaws`, `FileEffects`, `Resolver`,
  `Relations`, `RelationLaws`, `RelationEffects`, `ReindexRuns`, `IndexStore`): an incrementally
  maintained index that always agrees with a simple function of the history of
  file events, and a relation table without dangling edges.
- **The writer lock** (`WriterLock`, `WriterLockPolling`): processes and threads
  as a step machine, and the polling loop over a real clock.
- **Bounded packers** (`Utf8`, `ResultBudget`, `CandidateDedupe`,
  `ContextTrim`): byte budgets with whole characters, deduplication with
  witnesses, and trimming by priority.

The tables are maps. Every operation exists twice: as a function from tables to
tables, about which the laws are proved, and, where the program updates rows in
place, as a method of `AgentStore.Store` or `IndexStore.Store` whose contract
says that it ends in exactly those tables. The modules named `...Effects` say what
each operation does in terms of rows, modes, statuses, links, names and lookups,
without the vocabulary of those functions; the laws say what stays true. The packers, the resolver and the
polling loop are methods with loops proved against such functions.

`dafny verify dfyconfig.toml` checks the whole project.

Each result over runs carries only the hypothesis it needs, and most carry none:
logs, fence history and children hold over every run of calls
(`ProtocolRuns.IsTrace`). What a late heartbeat can break assumes timely
heartbeats, which touch only unexpired claims (`Timely`); exclusion and the order
of writers assume behaved calls, where moreover no caller gives a stopped run a
status that is not stopped (`Behaved`), and are also proved under their exact
conditions (`ProtocolLimits.Safe`, `FenceOrder.Orderly`), and so is the blocker
invariant (`BlockerRuns.Harmless`). Some results about the index assume that a
parser gives every symbol it declares a definition occurrence and every chunk of a
file its own identity (`FileIndex.WellFormedParse`); `SymbolLaws.LiveExactlyWhen`
says what happens without it.

A few methods of the two stores run one query and so repeat their specification
function; they have no row below, and the laws of that function say what it means
(`HeartbeatClaim`: `ProtocolLimits.HeartbeatExclusionIff`; `StartRun`:
`AgentRunLaws.StartRunSound`; `SyncBlockedRuns`: `AgentRunLaws.SyncEstablishes`;
`ClearRelationsForFile`: `RelationLaws.ReparseLosesEdgeIff`).

Where the code differs from what its documentation suggests, the model follows
the code:

- `heartbeat_claim` extends expired claims. That can break exclusion
  (`ProtocolLimits.HeartbeatExclusionIff`), put fences out of order even where it
  does not (`ProtocolLimits.QuietHeartbeatReordersFences`), and give an expired
  lease its token back (`ProtocolLimits.ExpiredTokenWorksAgainIff`).
- `end_run` and a status event can revive a stopped run. `end_run` releases its
  plain claims first, so only its leases come back
  (`ProtocolLimits.RevivedRunExclusionIff`); a status event releases nothing, and
  `claim_file` does not ask whether its own run is live, so plain claims come back
  too (`ProtocolLimits.StatusEventExclusionIff`,
  `ProtocolLimits.IdleWriterComesBack`). Heartbeats and revivals put writes out of
  order exactly when an overtaken claim comes back (`FenceOrder.FenceOrderIff`).
- A status event can set a run to "blocked" that nothing blocks
  (`BlockerRuns.StepBlockersIff`).
- A symbol without a definition occurrence lives until the next parse of any file
  that does not declare it (`SymbolLaws.UndefinedSurvivesIff`). While it lives,
  repair has no file for its dead edges, and the last transaction of a reindex fails
  (`ReindexRuns.NoDanglingIff`, `ReindexRuns.UnlistableEdge`).
- `_completion_policy` always returns the default policy, so the policy condition in
  `reconcile_swarm_parent` decides nothing and is absent here.
- The orchestrator releases all modes of a run on a due path, not only the due
  row (`OrchestratorLaws.ExpireDueSpares`).
- Deleting or parsing a file also deletes edges of symbols that another file
  still defines (`RelationLaws.RemovalLosesLiveEdgeIff`,
  `RelationLaws.ReparseLosesEdgeIff`).
- Truncation reason NONE can hide a non-empty body
  (`ResultBudget.NoneCanHideText`).
- The first sleep of the writer lock is not capped at half a second
  (`WriterLockPolling.PollingIsPunctual`).
- A failed parse after a tombstone clears the file's deletion mark but defines
  nothing, so "latest parse" means latest since the last tombstone
  (`FileIndex.Latest`).

## Model

| member | source | states |
|---|---|---|
| `ProtocolRuns.FencesOrderWriters` | code_index/agent_activity.py:681-1084 | in every behaved run (claims, leases, renewals, re-claims, expiry, ends, orchestrator passes, ticks in any order), a write of a live run that verifies later than another run's verified write on the same path carries a larger fence |
| `ProtocolRuns.MutualExclusion` | code_index/agent_activity.py:872-907 | in every state that behaved calls reach from empty tables, live claims of different runs on one path never include two writers nor an exclusive claim |
| `ProtocolRuns.DeadFenceStaysDead` | code_index/agent_activity.py:948-1084 | in every run with timely heartbeats, revived runs included, an issued fence that no current row of its path carries any more never verifies again, for any run |
| `ProtocolRuns.TableMaximumIsHistoricalMaximum` | code_index/agent_activity.py:860-869 | although rows are overwritten, the largest fence in the table of a path is the largest ever issued on it |
| `ProtocolRuns.GrantedFenceIsNew` | code_index/agent_activity.py:814-857 | in any reachable state, the fence of a new claim granted by `claim_file` or `create_lease` exceeds every fence that any event of the path's history carries |
| `ProtocolRuns.GainedFenceIsNew` | code_index/agent_activity.py:814-857 | whatever the call, late heartbeats apart, a row that becomes current or changes its fence carries a fence above the whole history of its path |
| `ProtocolRuns.LogsReplayOverRuns` | code_index/lease_manager.py:198-227 | over every run, without condition, the log of a claim only grows, its replay gives the row's status and fence, and a token is stored exactly on active leases |
| `ProtocolRuns.BehavedStepKeeps` | code_index/agent_activity.py:704-829 | one behaved call or tick keeps row/log agreement, distinct fences per path, exclusion, and that fences only move up |
| `ProtocolRuns.TraceKeeps` | code_index/agent_activity.py:681-1219 | the table laws hold in every state of a behaved run that starts with them |
| `ProtocolRuns.TraceEvolves` | code_index/agent_activity.py:681-1219 | between any two states of a behaved run, a row that is current later was current with the same fence before, or its fence is new to the path, and stopped runs stay stopped |
| `ProtocolRuns.TimelyRunEvolves` | code_index/agent_activity.py:681-1219 | the same for the rows when only heartbeats are timely and runs may be revived |
| `ProtocolRuns.TraceGrows` | code_index/agent_activity.py:681-1219 | over every run, without condition, rows agree with their logs, fences of a path differ, no claim vanishes, fences never go down and logs only grow |
| `ProtocolRuns.StoredTokenIsLatest` | code_index/lease_manager.py:230-284 | a stored token is that of the claim's latest successful `create_lease`, and token and fence have stayed on the row ever since |
| `ProtocolRuns.AcceptedTokenIsLatest` | code_index/lease_manager.py:287-448 | `renew_lease` and `release_lease` accept only the token of the latest `create_lease`, on a lease that is active and unexpired |
| `ProtocolRuns.LostTokenNeverWorks` | code_index/lease_manager.py:287-448 | over every run, once the row of a claim stores a token no longer, after release, sweep or re-creation, that token is never accepted again |
| `BlockerRuns.BlockersAgreeIff` | code_index/agent_activity.py:484-593 | over any run from empty tables, in every state no active link points at a completed run and every unarchived blocked run has an active link, exactly when no call writes "blocked" by hand to an unarchived run without an active blocker |
| `BlockerRuns.StepBlockersIff` | code_index/agent_activity.py:484-593 | the same for one call of any kind |
| `BlockerRuns.BlockersAgreeOverRuns` | code_index/agent_activity.py:484-593 | in particular in every reachable state, reopened blockers included, when only `add_run_blockers` writes "blocked" |
| `BlockerRuns.LinkStaysActive` | code_index/agent_activity.py:484-593 | over every run: while its blocker is not completed, an active link stays active, whatever the calls |
| `ProtocolLimits.HeartbeatExclusionIff` | code_index/agent_activity.py:1114-1158 | a heartbeat keeps mutual exclusion exactly when it extends no expired claim of a live run that is in conflict now |
| `ProtocolLimits.HeartbeatEvolvesIff` | code_index/agent_activity.py:1131-1148 | a heartbeat keeps the evolution of rows, on which dead fences rest, exactly when it sets no expiry or extends no expired row |
| `ProtocolLimits.LateHeartbeatReordersFences` | code_index/agent_activity.py:1131-1148 | with a heartbeat on an expired claim beside a held one, an older fence verifies after a newer one, in every such state |
| `ProtocolLimits.QuietHeartbeatReordersFences` | code_index/agent_activity.py:1131-1148 | also when the newer writer has released before the heartbeat, so that exclusion is never broken |
| `ProtocolLimits.LateWriterExample` | code_index/agent_activity.py:1131-1148 | concrete well-formed tables in which that happens |
| `ProtocolLimits.RevivedRunExclusionIff` | code_index/agent_activity.py:1856-1878 | `end_run`, with any status, keeps exclusion exactly when the run stays archived or stopped or none of its remaining current leases is in conflict |
| `ProtocolLimits.StatusEventExclusionIff` | code_index/agent_activity.py:1298-1342 | a status event, with any status, keeps exclusion exactly when the run stays archived or stopped or none of its current claims, plain or lease, is in conflict |
| `ProtocolLimits.IdleWriterComesBack` | code_index/agent_activity.py:1298-1342 | a status event on a stopped run with a current plain write claim beside a live writer breaks exclusion, and the run writes with its own fence once the other has released |
| `ProtocolLimits.IdleWriterExample` | code_index/agent_activity.py:1298-1342 | concrete well-formed, exclusive tables of that kind, where the fence that comes back is the smaller one |
| `ProtocolLimits.StepExclusionIff` | code_index/agent_activity.py:872-907 | in well-formed exclusive tables, each of the sixteen kinds of step keeps exclusion exactly under these conditions |
| `ProtocolLimits.ExclusionIff` | code_index/agent_activity.py:872-907 | over any run from empty tables, exclusion holds throughout exactly when no heartbeat extends a conflicting expired claim of a live run and no revival brings back a conflicting claim |
| `ProtocolLimits.ExpiredTokenWorksAgainIff` | code_index/agent_activity.py:1131-1148 | for a lease past its expiry that nothing has cleared, whatever the next call: its token is not accepted before, and accepted after exactly when the call extends the claim by a heartbeat or issues that token anew |
| `ProtocolLimits.LateHeartbeatRevivesToken` | code_index/agent_activity.py:1131-1148 | a heartbeat makes the token of every active lease past its expiry work again |
| `ProtocolLimits.ExpiredTokenNeverWorks` | code_index/lease_manager.py:287-448 | in runs with timely heartbeats, a token whose lease was not current in some later state, swept or not, is never accepted again |
| `ProtocolLimits.EndRunKeepsHeldLeases` | code_index/agent_activity.py:1188 | ending a run leaves its unexpired leases untouched |
| `ProtocolLimits.RefusedRenewalOnlyLogs` | code_index/lease_manager.py:287-334 | a renewal refused for its token or fence, on any active claim but a stale lease, changes no field of any row and logs one denial, which leaves the replay of the log as it was |
| `ProtocolLimits.RefusedReleaseOnlyLogs` | code_index/lease_manager.py:383-408 | a release refused for its token does the same |
| `ProtocolLimits.ReclaimKeepsHeldLease` | code_index/agent_activity.py:734-812 | a plain claim over a held lease of the same key keeps its fence, token, expiry and log |
| `FenceOrder.FenceOrderIff` | code_index/agent_activity.py:681-1347 | over any run from empty tables, later verified writes of other live runs carry larger fences, wherever the run stops and whichever runs are then archived, exactly when no heartbeat extends and no revival brings back a write claim that another run's has overtaken |
| `FenceOrder.NextCallOrderIff` | code_index/agent_activity.py:681-1347 | after such a run the next call alone decides: writes can come out of order after it exactly when it brings back an overtaken write claim |
| `FenceOrder.OrderlyRunOrdersWriters` | code_index/agent_activity.py:948-1084 | so later verified writes of other live runs carry larger fences in every run of such steps, late heartbeats and revived runs included |
| `FenceOrder.BehavedStepIsOrderly` | code_index/agent_activity.py:681-1347 | every behaved step is of that kind |
| `FenceOrder.OvertakenClaimWritesOutOfOrder` | code_index/agent_activity.py:948-1084 | in any run from empty tables, after a call that brings back an overtaken claim, archiving the other runs leads to a verified write with a fence not above that of an earlier verified write of the same run of calls |
| `FenceGrants.GrantedWriterVerifies` | code_index/agent_activity.py:814-857 | whatever the call (claims, leases, edit events, materialized children, whole passes), every write row that it makes or gives a new fence verifies with it in the state the call leaves |
| `FenceGrants.WriteFencesWereVerified` | code_index/agent_activity.py:814-857 | so in any run from empty tables the fence of every write row was verified for its run in some state so far |
| `ClaimLaws.ClaimFileKeeps` | code_index/agent_activity.py:681-857 | `claim_file`, by any run in any state, keeps the table laws |
| `ClaimLaws.CreateLeaseKeeps` | code_index/lease_manager.py:230-284 | so does `create_lease` |
| `ClaimLaws.RenewLeaseNarrows` | code_index/lease_manager.py:287-380 | `renew_lease` grants nothing: every row keeps its fence, and none becomes current that was not |
| `ClaimLaws.ReleaseLeaseNarrows` | code_index/lease_manager.py:383-448 | the same for `release_lease` |
| `ClaimLaws.ReleaseClaimsNarrows` | code_index/agent_activity.py:1161-1219 | the same for `release_claims` |
| `ClaimLaws.ExpireStaleNarrows` | code_index/lease_manager.py:451-510 | the same for `expire_stale_leases` |
| `ClaimLaws.HeartbeatNarrows` | code_index/agent_activity.py:1114-1158 | the same for a heartbeat that reaches only unexpired rows |
| `ClaimLaws.NarrowsKeeps` | code_index/agent_activity.py:872-907 | a step that grants nothing keeps log agreement, distinct fences, exclusion and the order of fences |
| `ClaimEffects.ClaimFileIff` | code_index/agent_activity.py:681-733 | `claim_file` succeeds exactly when the run is known, path and mode are given, and no other unarchived run that has neither ended nor is in review has an active, unexpired claim on the path such that one of the two modes is exclusive or both are edit; and which error it gives otherwise |
| `ClaimEffects.ClaimFileEffect` | code_index/agent_activity.py:734-857 | it leaves a held lease of the same key as it was, and otherwise an active plain row with the next fence of the path and the deadline of a positive time to live; every other row, run and link stays, leases past their expiry apart |
| `ClaimEffects.CreateLeaseEffect` | code_index/lease_manager.py:230-284 | `create_lease` leaves an active lease with the token; a held lease keeps fence and expiry, any other row takes new ones |
| `ClaimEffects.RenewLeaseEffect` | code_index/lease_manager.py:287-380 | `renew_lease` succeeds exactly with the token and fence of an active lease within its time, and then moves its expiry, logs it and touches nothing else |
| `ClaimEffects.ReleaseLeaseEffect` | code_index/lease_manager.py:383-448 | `release_lease` succeeds exactly with the token of an active lease within its time; then the row is released (or expired) without token, fence and expiry kept, exactly that event logged, and nothing else changes |
| `ClaimEffects.LeaseRefused` | code_index/lease_manager.py:383-448 | otherwise it gives the first error that applies; an expired lease is swept and a wrong token is logged as a denial |
| `ClaimEffects.ReleaseClaimsEffect` | code_index/agent_activity.py:1161-1219 | `release_claims` lets go of exactly the active plain rows of the run, path and mode, as released or expired |
| `ClaimEffects.VerifiedIff` | code_index/agent_activity.py:948-1084 | a write verifies exactly when the run is known, no other run at work may write the path, and the run has an edit or exclusive claim there, active and unexpired, with that fence |
| `ClaimEffects.RefusedWriteIff` | code_index/agent_activity.py:948-1084 | and otherwise a rival is reported first, then a missing, an expired, and a differently fenced claim |
| `ClaimLifetimes.ReturnedTokenIsDead` | code_index/lease_manager.py:383-448 | over every run: after a `release_lease` that succeeded, the row is not current and no later call accepts the token |
| `ClaimLifetimes.NothingOutlivesItsDeadline` | code_index/agent_activity.py:872-907 | over every run: a claim is not current after its deadline, whatever other runs and the orchestrator do, unless its own run claimed, leased, renewed or beat it meanwhile |
| `ClaimLifetimes.ClaimLastsItsTime` | code_index/agent_activity.py:826 | a claim made with a positive time to live is current up to that time and not after it |
| `ClaimLifetimes.MaterializedDeadlines` | code_index/agent_swarm.py:394-442 | the claims of materialized children are live and expire half an hour after they were made |
| `AgentRunLaws.SyncEstablishes` | code_index/agent_activity.py:484-515 | whatever links and statuses were, one `_sync_blocked_runs` makes them agree |
| `AgentRunLaws.SyncIsFixpoint` | code_index/agent_activity.py:484-515 | one pass reaches the fixpoint |
| `AgentRunLaws.CompletionUnblocks` | code_index/agent_activity.py:1339-1342 | completing a run, by `end_run` or a status event, queues exactly the blocked runs that only it was blocking |
| `AgentRunLaws.AddRunBlockersSound` | code_index/agent_activity.py:518-593 | `add_run_blockers` keeps the claim and blocker laws on every path |
| `AgentRunLaws.EndRunSound` | code_index/agent_activity.py:1856-1878 | `end_run` keeps all claim and run laws unless it revives a stopped run |
| `AgentRunLaws.ArchiveRunSound` | code_index/agent_activity.py:1674-1693 | `archive_run` keeps them |
| `AgentRunLaws.RecordEventSound` | code_index/agent_activity.py:1259-1347 | `record_event` keeps them, also when its claim is refused after the status was written |
| `AgentRunLaws.StartRunSound` | code_index/agent_activity.py:435-468 | `start_run` keeps them, and the blocker laws unless it starts the run as blocked |
| `AgentRunLaws.EndRunLasts` | code_index/agent_activity.py:1856-1878 | `end_run` keeps row/log agreement, the evolution of rows and the blocker laws also when it revives a run |
| `AgentRunLaws.RecordEventLasts` | code_index/agent_activity.py:1259-1347 | so does `record_event` |
| `RunEffects.SyncEffect` | code_index/agent_activity.py:484-515 | a synchronisation resolves exactly the links to completed runs and queues exactly the blocked unarchived runs that nothing holds up any more |
| `RunEffects.EndRunEffect` | code_index/agent_activity.py:1856-1878 | `end_run` releases exactly the plain active claims of the run and writes the status, whatever it is; completing synchronises, and nothing else changes |
| `RunEffects.StatusEventEffect` | code_index/agent_activity.py:1298-1342 | a status event writes its status; a stopped one also releases the claims, a completed one synchronises |
| `RunEffects.WorkEventEffect` | code_index/agent_activity.py:1298-1342 | a work event sets a run that has not stopped to working; a read, edit or test with a path claims it in that mode for half an hour |
| `RunEffects.AddRunBlockersEffect` | code_index/agent_activity.py:518-593 | `add_run_blockers` links every listed run, resolved when it is completed and active otherwise; a run with an active link is then blocked unless it is in review, with no other change, and otherwise one synchronisation follows |
| `RunEffects.AddRunBlockersRefused` | code_index/agent_activity.py:518-593 | it refuses unknown and ended runs and self-blocking; at an unknown blocker exactly the links before it are written |
| `RunEffects.BlockedByNewBlocker` | code_index/agent_activity.py:549-582 | so a run that has not stopped is blocked by any listed run that is not completed |
| `SwarmLaws.MaterializeIff` | code_index/agent_swarm.py:326-479 | children appear exactly when the parent is ready and the selected files are free for and between the roles; then all of them, otherwise nothing changes |
| `SwarmLaws.CreateChildrenIff` | code_index/agent_swarm.py:394-442 | creating the children succeeds exactly when their ids are new and no claim of one conflicts with a live claim or a sibling |
| `SwarmLaws.TwoEditorsNeverMaterialize` | code_index/agent_swarm.py:326-479 | a swarm with two editing roles and a selected file never materializes and leaves no trace |
| `SwarmLaws.MaterializedParentWaits` | code_index/agent_swarm.py:221-323 | right after materialization reconciliation does nothing |
| `SwarmLaws.ReconcileTouchesOnly` | code_index/agent_swarm.py:221-323 | a reconciliation that moves a parent changes only its status, its plain active claims and leases past their expiry |
| `SwarmRuns.SwarmsAreWhole` | code_index/agent_swarm.py:326-479 | over any run, a swarm call or a whole orchestrator pass that gives a parent any child gives it all: one new, distinct, queued child for each role, with a live claim in its mode on every selected file, and no other |
| `SwarmRuns.PassWhole` | code_index/run_orchestrator.py:347-382 | one pass, whatever its lists contain and however often they name the parent, gives it no child or that whole set |
| `SwarmRuns.ChildrenAreCreatedOnce` | code_index/agent_swarm.py:326-479 | and at most one step of the run does |
| `SwarmRuns.ReviewedChildrenHaveStopped` | code_index/agent_swarm.py:221-323 | over every run, when reconciliation puts a parent to review, on its own or in a pass, every run ever made its child, by whatever call, has stopped or been archived |
| `SwarmRuns.ReviewedIsDone` | code_index/agent_swarm.py:221-323 | and has at least the expected number of unarchived children, all stopped, also at the end of a whole orchestrator pass |
| `SwarmEffects.MaterializeExactly` | code_index/agent_swarm.py:326-479 | one call makes the whole swarm exactly when the run leads, has no parent, is queued or ready, unblocked, childless and never had its swarm, has a role, the ids are new, and no rival claim nor another role is in the way; otherwise nothing changes |
| `SwarmEffects.PassMaterializesIff` | code_index/run_orchestrator.py:347-382 | a pass makes the whole swarm of a listed parent exactly when that holds at the parent's turn |
| `SwarmEffects.DefaultRolesAre` | code_index/agent_swarm.py:545-562 | without roles there are as many children as asked for: read, edit, read, test, and then review |
| `SwarmEffects.ResumeRolesAre` | code_index/agent_swarm.py:545-562 | with roles the children take the named ones, all of them and in their order |
| `SwarmEffects.ReconcileExactly` | code_index/agent_swarm.py:221-323 | `reconcile_swarm_parent` moves a parent exactly when it leads, has no parent and has not stopped, and its unarchived children are there, all stopped, and at least as many as asked for; otherwise nothing changes |
| `SwarmEffects.PassReviews` | code_index/run_orchestrator.py:330-344 | a pass puts every such parent that it lists to review |
| `SwarmEffects.FinishedSwarmIsReviewed` | code_index/agent_swarm.py:221-323 | over any run: once all children of a materialized parent have stopped, the created ones unarchived, the next reconciliation, alone or in a pass that lists the parent, puts it to review |
| `SwarmLaws.MaterializeSound` | code_index/agent_swarm.py:326-479 | materialization keeps all claim and run laws |
| `SwarmLaws.ReconcileSound` | code_index/agent_swarm.py:221-323 | so does reconciliation |
| `OrchestratorLaws.DeadRuleIff` | code_index/run_orchestrator.py:265-331 | within the list limits, the dead-run rule moves exactly the live, dead, unblocked runs without a live claim to review and touches no other run |
| `OrchestratorLaws.PassLeavesNoneAbandoned` | code_index/run_orchestrator.py:265-344 | after a whole pass within the limits no such run is left |
| `OrchestratorLaws.PassSound` | code_index/run_orchestrator.py:265-382 | a pass keeps every claim and run law, whatever its lists contain |
| `OrchestratorLaws.ExpireDueSpares` | code_index/run_orchestrator.py:280-294 | a plain claim survives the expiry loop exactly when no listed row with a deadline at or before the time of the pass shares its run and path, whatever its own mode; otherwise it is expired |
| `OrchestratorLaws.MaterializeAbandonsNone` | code_index/run_orchestrator.py:347-382 | materializing children abandons no run |
| `AgentStore.Store.ExpireStaleLeases` | code_index/lease_manager.py:451-510 | updates and logs exactly the stale leases, row by row |
| `AgentStore.Store.HasConflict` | code_index/agent_activity.py:872-907 | finds a conflicting live claim exactly when there is one |
| `AgentStore.Store.NextFenceToken` | code_index/agent_activity.py:860-869 | returns one more than the largest fence of the path |
| `AgentStore.Store.ClaimFile` | code_index/agent_activity.py:681-857 | leaves the tables and the result of the specified claim, in every error case too |
| `AgentStore.Store.CreateLease` | code_index/lease_manager.py:230-284 | is all or nothing: a refused claim restores the tables |
| `AgentStore.Store.RenewLease` | code_index/lease_manager.py:287-380 | leaves the specified tables for every token, fence and expiry case |
| `AgentStore.Store.ReleaseLease` | code_index/lease_manager.py:383-448 | leaves the specified tables for every token and expiry case |
| `AgentStore.Store.ReleaseClaims` | code_index/agent_activity.py:1161-1219 | releases exactly the plain active claims that match, after expiry |
| `AgentStore.Store.VerifyWriteClaim` | code_index/agent_activity.py:948-1084 | scans the rows and returns the specified verdict |
| `AgentStore.Store.AddRunBlockers` | code_index/agent_activity.py:518-593 | links up to the first unknown blocker, then blocks or synchronises |
| `AgentStore.Store.EndRun` | code_index/agent_activity.py:1856-1878 | releases plain claims, writes the status, unblocks on completion |
| `AgentStore.Store.ArchiveRun` | code_index/agent_activity.py:1674-1693 | releases plain claims and archives |
| `AgentStore.Store.RecordEvent` | code_index/agent_activity.py:1259-1347 | writes status, claims the file, releases and unblocks as specified |
| `AgentStore.Store.ClaimFiles` | code_index/agent_activity.py:1087-1111 | claims path by path, with the given time to live, and stops at the first refusal |
| `AgentStore.Store.MaterializeSwarmChildren` | code_index/agent_swarm.py:326-479 | leaves the specified tables; an error restores them |
| `AgentStore.Store.ReconcileSwarmParent` | code_index/agent_swarm.py:221-323 | leaves the specified tables |
| `AgentStore.Store.Apply` | code_index/run_orchestrator.py:265-382 | leaves the tables of the specified pass, loop by loop |
| `WriterLock.MutualExclusion` | code_index/locking.py:99-168 | over all interleavings of processes and threads, crashes included, at most one thread of one process is inside a writer-lock body |
| `WriterLock.HeldIsNestingDepth` | code_index/locking.py:121-129 | while a thread is inside, the held count, the thread lock's count and its nesting depth are the same number, and its process has the OS lock |
| `WriterLock.HeldMeansLocked` | code_index/locking.py:85-97 | a positive held count implies the OS lock is held by that process |
| `WriterLock.LockLeavesAtOutermostExit` | code_index/locking.py:156-168 | the OS lock leaves a process only when it dies or in the finaliser of its outermost context, with nobody inside and the count gone |
| `WriterLock.LeavingRestoresEverything` | code_index/locking.py:120-168 | when all threads of a process are out, on whatever path, it holds no thread lock, no count and no OS lock |
| `WriterLock.ReentryNeverBlocks` | code_index/locking.py:122-129 | nested entry by the thread inside takes three enabled steps and never touches the OS lock |
| `WriterLock.FinalisersNeverStick` | code_index/locking.py:156-168 | every finaliser step is enabled and leads to the next |
| `WriterLock.GivingUpLeaves` | code_index/locking.py:140-168 | a timed-out attempt touches neither the OS lock nor the frames around it and goes on to close its file and release the thread lock |
| `WriterLock.FinaliserFreesLock` | code_index/locking.py:156-168 | a successful unlock frees the OS lock, and so does closing the file after a failed one |
| `WriterLock.FreeLockIsWon` | code_index/locking.py:42-58 | an attempt wins when no other process may hold the lock |
| `WriterLock.StepKeepsInv` | code_index/locking.py:99-168 | each statement keeps the agreement of thread lock, held count and OS lock |
| `WriterLockPolling.PollOsLock` | code_index/locking.py:140-153 | stops at the first attempt that wins or whose clock reading reached the deadline, and says which |
| `WriterLockPolling.PollingIsPunctual` | code_index/locking.py:150-153 | no attempt starts later than the deadline plus max(poll, 0.5 s), from the third on plus 0.5 s, and the oversleep |
| `WriterLockPolling.SleepsGrow` | code_index/locking.py:144-153 | the sleeps grow by half each time, up to half a second |
| `WriterLockPolling.AttemptsAreBounded` | code_index/locking.py:144-153 | the number of attempts is bounded by timeout over min(poll, 0.5 s) |
| `SymbolLaws.LiveExactlyWhen` | code_index/pipeline.py:645-668 | after any history, whatever the parsers return, a symbol is live exactly when some file's latest parse defines it, or the last parse applied declares it and no file defined it then |
| `SymbolLaws.UndefinedSurvivesIff` | code_index/pipeline.py:645-668 | a symbol without a definition survives exactly when the last applied parse, of whichever file, declares it and it had no definition then either |
| `SymbolLaws.SymbolLiveIff` | code_index/pipeline.py:645-668 | when parsers define what they declare, after any history of parses, failures and removals a symbol is live exactly when the latest successful parse of some undeleted file declares it |
| `SymbolLaws.KeysAreForever` | code_index/pipeline.py:248-311 | a symbol keeps its key for ever, also when its definition moves or comes back |
| `SymbolLaws.StepKeepsKeys` | code_index/pipeline.py:248-311 | symbol keys stay unique under every event |
| `SymbolLaws.LiveSymbolsAreDefined` | code_index/pipeline.py:645-668 | a live symbol has a definition in an undeleted file exactly when it is not one of those spared by the last parse |
| `SymbolLaws.AppliedAgrees` | code_index/pipeline.py:342-398 | applying any parse keeps definitions, liveness and latest parses in agreement, and spares only what it declares itself |
| `SymbolLaws.TombstonedAgrees` | code_index/pipeline.py:678-782 | tombstoning a file does too |
| `SymbolLaws.UndefinedSymbolIsLost` | code_index/pipeline.py:645-668 | without a definition occurrence a declared symbol dies at the next parse of another file |
| `FileEffects.FilesAre` | code_index/pipeline.py:903-1151 | after any history a file is deleted exactly when the last event about it was its removal or a read error |
| `FileEffects.SymbolsAre` | code_index/pipeline.py:248-311 | a symbol has the names it was last declared with |
| `FileEffects.OccurrencesAre` | code_index/pipeline.py:342-398 | the occurrences are exactly those of the latest parses of undeleted files, definitions and references |
| `ChunkLaws.EditLogReplays` | code_index/pipeline.py:415-643 | after any history, replaying a chunk's edit log gives its hash and liveness, and its edit count is the number of update rows |
| `ChunkLaws.LiveChunksAreTheParsedOnes` | code_index/pipeline.py:415-643 | the live chunks are exactly those of the files' latest successful parses, with the parsed hashes |
| `ChunkLaws.ParsedChunksAreLive` | code_index/pipeline.py:426-464 | right after a parse each of its chunks is live with its hashes |
| `ChunkLaws.ReapplyChangesNothing` | code_index/pipeline.py:342-675 | applying the same parse twice changes no table: no row, log entry, key or embedding |
| `ChunkLaws.EmbeddingsAreCurrent` | code_index/embeddings/store.py:111-190 | every stored embedding was computed from the hash its chunk has now |
| `ChunkLaws.ChangeDropsEmbeddings` | code_index/pipeline.py:583-591 | no embedding survives a change of content or a revival of its chunk |
| `FileEffects.EmbeddingsAre` | code_index/embeddings/store.py:111-190 | an embedding is stored exactly when it was computed for a live chunk that has not changed nor come back since |
| `Resolver.WalkChain` | code_index/relation_resolver.py:76-98 | the walk with its seen-set returns the first live symbol among at most five re-export hops, cycles included |
| `Resolver.MatchExactOrReexport` | code_index/relation_resolver.py:108-141 | returns the first candidate's exact or re-export hit |
| `Resolver.MatchSuffix` | code_index/relation_resolver.py:144-156 | returns the first suffix hit |
| `Resolver.TryResolveCandidates` | code_index/relation_resolver.py:62-105 | tries all tiers of a candidate before the next candidate |
| `Resolver.TryResolveWithJedi` | code_index/relation_resolver.py:159-184 | tries all candidates of a tier before the next tier |
| `Resolver.TiersFindIff` | code_index/relation_resolver.py:159-184 | without precise names the tiered order finds a target exactly when the candidate order does |
| `Resolver.TiersAgreeOnOne` | code_index/relation_resolver.py:159-184 | on one candidate both find the same |
| `Resolver.ExactBeatsSuffix` | code_index/relation_resolver.py:159-184 | any exact or re-export hit beats every suffix hit, wherever it is in the list |
| `Resolver.OrdersDifferIff` | code_index/relation_resolver.py:62-184 | the two orders differ exactly when a suffix hit precedes the first exact or re-export hit and names another symbol |
| `Resolver.TargetIsLive` | code_index/relation_resolver.py:76-105 | whatever tier finds it, the target is live |
| `ReindexRuns.NoDanglingIff` | code_index/pipeline.py:1153-1212 | after any sequence of reindexes, failed ones included, every relation with a live source ends at a live symbol exactly when each dead edge the last one found has a source that some file defines; otherwise its last transaction was rolled back |
| `ReindexRuns.NoDanglingAfterReindexes` | code_index/pipeline.py:1153-1212 | in particular whenever the last reindex ran to its end |
| `ReindexRuns.DeadRowsExistIff` | code_index/relation_resolver.py:530-580 | the repair query has a file for every dead edge, so that its NOT NULL column does not fail, exactly when every such edge has a source that some file defines |
| `ReindexRuns.HomelessIsSpared` | code_index/pipeline.py:645-668 | after any history, the live symbols that no file defines are exactly those spared by the last parse |
| `ReindexRuns.DeadRowsExist` | code_index/relation_resolver.py:530-580 | with well-formed parses there is always such a listing |
| `ReindexRuns.UnlistableEdge` | code_index/relation_resolver.py:557-580 | two events after which there is none: a file with a caller that has no definition occurrence comes and goes |
| `ReindexRuns.IndexIsARun` | code_index/pipeline.py:903-1151 | the file tables between reindexes are those of the whole event history |
| `RelationLaws.FinalPassLeavesNoDangling` | code_index/pipeline.py:1153-1212 | the last transaction of one reindex leaves no dangling relation |
| `RelationLaws.FinalPassConserves` | code_index/relation_resolver.py:387-586 | across repair and backfill, edges plus open rows drop by exactly the rows closed because their source is gone |
| `RelationLaws.RepairedExactly` | code_index/relation_resolver.py:511-586 | repair removes exactly the dead edges and appends exactly one open row for each |
| `RelationLaws.RepairConserves` | code_index/relation_resolver.py:511-586 | repair keeps edges plus open rows |
| `RelationLaws.BackfillConserves` | code_index/relation_resolver.py:440-508 | every row that backfill closes is replaced by an edge, or its source is gone |
| `RelationLaws.BackfillIsAFixpoint` | code_index/relation_resolver.py:440-508 | a backfill over all open rows reaches its fixpoint in one pass |
| `RelationLaws.RepairedEdgeHeals` | code_index/relation_resolver.py:516-529 | a repaired edge comes back once a live symbol has the lost canonical name, unless that is its own source |
| `RelationLaws.QuietPassChangesNothing` | code_index/pipeline.py:1174-1212 | a reindex that saw nothing new changes no relation and no open row |
| `RelationLaws.SelectedRows` | code_index/relation_resolver.py:403-420 | the backfill query returns each open row that its name filter wants once |
| `RelationLaws.RemovalLosesLiveEdgeIff` | code_index/pipeline.py:777-781 | after any history, deleting a file loses an edge of a still live symbol exactly when the file and another one define the symbol |
| `RelationLaws.ReparseLosesEdgeIff` | code_index/pipeline.py:802-822 | a parse of a file takes an edge away exactly when its kind is one that parses find, the file defined the source before, and the new parse does not name the edge itself |
| `RelationEffects.ByTierIff` | code_index/relation_resolver.py:159-184 | the tiered order finds the first candidate that leads to a live symbol through at most five re-exports, and if none does the first that a suffix query knows |
| `RelationEffects.PreciseTierIff` | code_index/relation_resolver.py:159-184 | the precise names decide exactly when no candidate leads anywhere exactly or by re-exports and one of them does; otherwise they change nothing |
| `RelationEffects.ResolvedEdgesAre` | code_index/relation_resolver.py:287-384 | resolving adds exactly the edges from live sources to the symbols that their candidates denote, self-relations apart; old edges stay |
| `RelationEffects.ResolvedRowsAre` | code_index/relation_resolver.py:287-384 | each relation of a live source that denotes nothing, or its source, becomes one open row with its file, source, kind and candidates; old rows stay, and there are no others |
| `RelationEffects.NoRelationIsLost` | code_index/relation_resolver.py:287-384 | so a relation with a live source ends as its edge or as its row |
| `RelationEffects.BackfilledEdgesAre` | code_index/relation_resolver.py:440-508 | a backfill adds exactly the edges that its rows denote |
| `RelationEffects.BackfilledRowsAre` | code_index/relation_resolver.py:440-508 | a row closes exactly when its source is gone or it denotes an edge that is not there yet at its turn |
| `RelationEffects.FinalPassIs` | code_index/pipeline.py:1153-1212 | the last transaction resolves, repairs and backfills over exactly the open rows that its occasion calls for: none, all, or those that mention one of at most a hundred new names |
| `RelationEffects.ResolvedRelationsLand` | code_index/pipeline.py:1153-1212 | every relation that resolves is an edge when the last transaction is done |
| `RelationEffects.ParsedEdgesAre` | code_index/pipeline.py:802-822 | after a parse the edges are those it names, and the old ones but for the parsed kinds of symbols the file defined |
| `RelationEffects.TombstonedEdgesAre` | code_index/pipeline.py:777-781 | a file that goes takes exactly the edges of the symbols it defined |
| `RelationEffects.EventRowsAre` | code_index/pipeline.py:717-822 | a parse and the end of a file take exactly the open rows of the file; no other event touches edges or rows |
| `IndexStore.Store.UpsertSymbol` | code_index/pipeline.py:248-311 | keeps the key of a known symbol, revives it, or takes a new key |
| `IndexStore.Store.UpsertSymbols` | code_index/pipeline.py:364-374 | maps each declared uid to its key |
| `IndexStore.Store.ReconcileChunk` | code_index/pipeline.py:426-614 | creates, leaves or updates one chunk; only an update drops its embeddings |
| `IndexStore.Store.ApplyParsedFile` | code_index/pipeline.py:342-675 | leaves the tables of the specified parse, table by table |
| `IndexStore.Store.TombstoneFile` | code_index/pipeline.py:678-782 | leaves the tables of the specified deletion |
| `IndexStore.Store.InsertRelation` | code_index/relation_resolver.py:214-233 | tells whether a new edge landed |
| `IndexStore.Store.ResolvePending` | code_index/relation_resolver.py:287-384 | turns every pending relation with a live source into an edge or an open row |
| `IndexStore.Store.RepairDeadEdges` | code_index/relation_resolver.py:511-586 | leaves the specified relations and counts the dead edges |
| `IndexStore.Store.BackfillUnresolved` | code_index/relation_resolver.py:387-508 | closes a row only when its source is gone or its edge lands |
| `IndexStore.Store.FinishReindex` | code_index/pipeline.py:1153-1212 | leaves the relations of the specified last transaction, with its conditional backfill |
| `IndexStore.Store.Handle` | code_index/pipeline.py:903-1126 | leaves the tables of the specified event |
| `Utf8.DecodedCut` | code_index/retrieval.py:1103-1110 | decoding a byte prefix of UTF-8 (section 3 of RFC 3629) while ignoring errors gives exactly the whole characters that fit |
| `Utf8.FitIsLongest` | code_index/retrieval.py:1103-1110 | and that is the longest prefix of whole characters that fits |
| `Utf8.RoundTrip` | code_index/retrieval.py:1103-1110 | decoding undoes encoding |
| `Utf8.ClipUtf8` | code_index/retrieval.py:1103-1110 | returns that prefix and whether it is less than all |
| `ResultBudget.ApplyBudget` | code_index/retrieval.py:951-993 | returns the packed results and the sum of their costs |
| `ResultBudget.PackedTexts` | code_index/retrieval.py:959-992 | every text is the longest whole-character prefix that fits what the results before it leave, with that cost; only the last may be cut |
| `ResultBudget.PackedIsBounded` | code_index/retrieval.py:959-992 | the results are a subsequence of the candidates, within limit and budget |
| `ResultBudget.ShownAreTheHits` | code_index/retrieval.py:959-992 | they are exactly the candidates considered with room for at least one character |
| `ResultBudget.NoneMeansNothingToAdd` | code_index/retrieval.py:996-1010 | reason NONE means every omitted candidate was considered with room left and would add zero bytes |
| `ResultBudget.NoneIff` | code_index/retrieval.py:996-1010 | reason NONE exactly when all results are whole and all candidates are results or places and bytes were left |
| `ResultBudget.ByteBudgetIff` | code_index/retrieval.py:996-1010 | reason BYTE_BUDGET exactly when a text is cut, or the budget is used up to its last byte with a candidate omitted |
| `ResultBudget.LimitIff` | code_index/retrieval.py:996-1010 | reason LIMIT exactly when all texts are whole, every place is taken, bytes are left and a candidate is omitted |
| `ResultBudget.NoneCanHideText` | code_index/retrieval.py:967-968 | NONE can still omit a non-empty body: its first character is wider than the room |
| `ResultBudget.NoneHidesNoNarrowText` | code_index/retrieval.py:996-1010 | it cannot where bodies begin with one-byte characters |
| `CandidateDedupe.DedupeCandidates` | code_index/retrieval.py:919-948 | returns the specified deduplication |
| `CandidateDedupe.DedupedIsUnique` | code_index/retrieval.py:919-948 | the output is ordered, made of candidates, and has unique handles and unique non-empty spans |
| `CandidateDedupe.EveryDropHasAKeptWitness` | code_index/retrieval.py:929-945 | every dropped candidate has a kept witness: same handle, same span, or the file result of its path |
| `CandidateDedupe.NothingCoveredIsKept` | code_index/retrieval.py:929-945 | no whole-file chunk is kept beside a candidate for its file |
| `CandidateDedupe.DedupeIsIdempotent` | code_index/retrieval.py:919-948 | a second pass changes nothing |
| `CandidateDedupe.StableSortSorts` | code_index/retrieval.py:928 | sorting is an ordered, order-keeping permutation |
| `ContextTrim.TrimToBudget` | code_index/commands/context_cmd.py:799-855 | returns the trimmed packet and sets `truncated` when something was cut, was cut before, or the packet is still too large; a budget of zero or less cuts nothing |
| `ContextTrim.CutOne` | code_index/commands/context_cmd.py:806-850 | makes the first possible cut, or says that none is left |
| `ContextTrim.PopNestedLast` | code_index/commands/context_cmd.py:883-896 | pops the last non-empty nested list |
| `ContextTrim.CutPopsFirst` | code_index/commands/context_cmd.py:807-849 | a cut pops the first non-empty list in priority order; the markdown is cut once, when no list is left |
| `ContextTrim.CutShrinks` | code_index/commands/context_cmd.py:806-850 | each round shrinks list elements plus one for long markdown by one |
| `ContextTrim.TrimCutsInOrder` | code_index/commands/context_cmd.py:806-850 | a list is touched only when all earlier ones are empty, and ends as a prefix of itself |
| `ContextTrim.TrimSparesMarkdown` | code_index/commands/context_cmd.py:834-849 | the markdown is shortened at most once and last; `by_node` still matches the notes |
| `ContextTrim.TrimFitsOrExhausts` | code_index/commands/context_cmd.py:806-850 | the result fits, or nothing trimmable is left |
| `ContextTrim.LastCutWasNeeded` | code_index/commands/context_cmd.py:806-850 | with one cut less it would not fit |
| `ContextTrim.TwoTrimsCutInOrder` | code_index/commands/context_cmd.py:146-150 | trimming again after the markdown is rewritten keeps the order of cuts |
| `ContextTrim.PopNestedReversed` | code_index/commands/context_cmd.py:883-911 | nested lists are cut from the last item backwards |
| `ContextTrim.ByNodeHasTheLastNotes` | code_index/commands/context_cmd.py:836-840 | `by_node` has exactly the named notes left, and of notes with one name the last |
| `ContextTrim.RStripStripsSpaces` | code_index/commands/context_cmd.py:848 | the shortened markdown loses all its trailing white space and nothing else |
| `ContextTrim.ShortenedIs` | code_index/commands/context_cmd.py:846-849 | long markdown becomes its first 216 characters without the white space they end in, and an ellipsis |
| `RelationLaws.CallsOutsideAreKept` | code_index/pipeline.py:717 | deleting a file's open rows keeps every row of the other files |
| `RelationLaws.QueuedAllAt` | code_index/relation_resolver.py:545-580 | the i-th new row is open, with file, source and kind of the i-th dead edge, and as candidates the lost canonical name and then the display name, if it has another one |

## Left out

- Several clock readings within one call: each call has one, as an integer.
- `agent_events` rows, messages and display metadata: they do not influence claims, runs or links.
- Spelling variants of statuses and path normalisation: statuses are constructors, paths are already normal.
- Token hashing and random ids: a token stands for its injective hash, new child run ids are given.
- Query order: the rows a loop reads are given as lists, and results hold for every order.
- The filter for orphan event runs and the limit of 100 visible children: no run is filtered, children are counted without limit.
- `materialize_swarm_children` inside a caller's transaction: it is modelled at top level, where an error rolls back everything.
- Parent attention metadata, run suggestions, trajectories, kanban, reports: heuristics or display.
- Columns of symbols, occurrences and chunks that no law reads (language, kind, container, positions, signatures), and diagnostics.
- Reference occurrences that resolving a call inserts: liveness reads definitions only.
- IndexStore.Store.FinishReindex: takes a listing of the dead edges with their files; the transaction that fails because there is none is modelled in `ReindexRuns` only.
- Provenance and weight of relations; the site line that repair recovers from the provenance text.
- Jedi (`TryResolveWithJedi` takes its names as given, `Relations` passes none), SCIP import, `test_edges`, and the clean-up of rows from older versions.
- SQL `LIKE`: the suffix query and the name filter of the backfill are given as functions of names.
- Completeness of a targeted backfill: the name filter misses partly qualified and re-exported candidates, so it does not hold.
- The names a reindex collects for that filter, its counters, and which files it visits: `Occasion` and the events are given.
- The Windows variant of the writer lock, two spellings of one lock path, forked processes, and asynchronous exceptions between two statements.
- Lone surrogates in texts: Python refuses to encode them, a Dafny `char` cannot be one.
- Collectors, selected-path boosts and per-source caps of retrieval: candidates and their sort ranks are given.
- JSON rendering: the size of a packet is a given function of it.
- HTTP server, CLI, provider registry, launchers and benchmarks: input and output.
