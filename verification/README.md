# Protocols of agentic-pkm-mvp in Dafny

This project models the protocols, state machines and parsers at the centre of the repository and proves what
they are for. Each component is one or a few modules:

- `TempLease`, `TempRetention`, `TempChain`, `TempAcquire`, `TempPruning`, `TempRuns`: the lease and pruning protocol
  of the pytest temporary namespaces. Runs, nested runs, cleaners, crashes and the clock interleave freely, one step per observable
  system call. A rename carries off everything below the namespace it names, so what is proved is about namespaces
  taken away: moved, or enclosed by a moved one.
- `WorktreeRecord`, `WorktreeHistory`, `WorktreeRegistry`, `WorktreeStore`, `WorktreeRemoval`: the lifecycle registry of
  agent worktrees, with snapshot-then-commit operations, a bounded branch history and two-phase removal with crash
  recovery against the checkouts on disk.
- `Retirement`: the saga that deletes remote refs in batches behind a write-ahead receipt. Other parties may
  change the remote at any access, a push may take effect although it reports failure, and the process may die
  between any two steps. A log of all that happens to the remote tells our pushes from theirs.
- `HealthMachine`, `HealthContract`: the hysteresis state machine, sample sequencing, publication of snapshots
  to the write guard, and one incident per outage.
- `Liveness`: the delivery liveness checker, with its early stop of paginated history and its green result.
- `Census`: the race-tolerant Linux process census over a process table that changes while it is read.
- `Replay`, `ReplayVerdict`: the replay of a recorded day, its reconciliation with the hub and its verdict.
- `ComposeEnv`: printing and reading back values of Compose environment files.
- `Text`, `Sorted`, `Wrappers`: white space, ascending lists and optional values, shared by the others.

Code that works in place is a class or a method with loops, proved against specification functions or stated
outright; protocols between processes are state machines over values, with their results stated over every run.
Git, GitHub, the hub, procfs, clocks and process death are nondeterministic choices. Time is `real` or whole
microseconds; hashes, generation markers and process identities are opaque values.

## Model

| member | source | states |
|---|---|---|
| `TempRetention.TakenOnlyWhenSettled` | conftest.py:438-566 | over every interleaving, a namespace is taken away only with itself or an enclosing one moved after that one had a terminal marker of a dead owner and every run that ever acquired it had touched and unlinked its child marker, all at or before the cleaner's cutoff |
| `TempLease.MovedAtMostOnce` | conftest.py:475-545 | over every interleaving, no two moves concern the same namespace, however old the cleaners' descriptors are |
| `TempChain.HeldTakenIff` | conftest.py:332-398 | a namespace that a live run has acquired is never moved itself, and is carried off inside an enclosing one if and only if the run's path no longer leads to it |
| `TempChain.EnclosingChainStays` | conftest.py:332-398 | unless a directory name was used again, a live run that has acquired its whole chain keeps every level of it until it releases that level, also while it releases inner ones: its path leads through exactly what it holds and nothing of it is taken away |
| `TempChain.LeadsThroughIff` | conftest.py:332-398 | exact condition: the path of a live run leads through what it holds if and only if each of those namespaces was made in the one above it under the name on the path |
| `TempChain.ChainTakenIff` | conftest.py:332-398 | once a run has acquired its whole chain, and for as long as it holds a level of it, that level is taken away if and only if the path does not lead through what it holds up to there |
| `TempRuns.ReusedNameBreaksChain` | conftest.py:337-373 | a run in which a reused name makes a run acquire another namespace in place of the one its inner levels lie in |
| `TempRetention.CrashRetains` | conftest.py:401-435 | if the namespace and all that enclose it have an owner who died without a terminal marker or a nested run that died with its child marker, no continuation takes it away |
| `TempRetention.CrashRetainsTop` | conftest.py:401-435 | so one crash retains a top-level namespace for ever |
| `TempChain.CrashRetainsChain` | conftest.py:332-398 | a run that dies at any time after acquiring a chain its path leads through, also while releasing it, retains for ever every level whose child marker it had not taken away, and any orphan directly in those, such as its own unfinished namespace |
| `TempRetention.RetainedForever` | conftest.py:401-435 | a namespace is never taken away once, for it and for each that encloses it, no run can write the terminal marker or no run can remove some child marker any more |
| `TempPruning.RetainedIff` | conftest.py:401-566 | exact condition, where the runs with a marker that still acquire have marked paths: a namespace is safe in all continuations if and only if it and all that enclose it are doomed in that sense |
| `TempPruning.CanBeMoved` | conftest.py:655-696 | the other direction, by construction: the runs with a marker in a namespace acquire what is left of their paths and release it, inner levels first, its owner finishes, and a cleaner moves it, while no other run acts |
| `TempAcquire.AcquiresAll` | conftest.py:332-398 | a run whose path is there and marked acquires all that is left of it from whatever stage it is in, and touches no namespace but those that its path spells |
| `TempAcquire.OnwardIff` | conftest.py:332-398 | a run that holds something not taken away can go on, whatever it has opened or locked, if and only if its path is there and what it has still to acquire is marked |
| `TempRuns.OrphanCanBeTaken` | conftest.py:679-696 | a run in which a nested namespace whose owner died without a terminal marker is carried off with the enclosing one |
| `TempRuns.HeldCanBeTaken` | conftest.py:336-338 | a run in which a namespace held by a live run, which has not yet reached the enclosing one, is carried off |
| `TempLease.PrunableCanBeMoved` | conftest.py:438-566 | conversely, every namespace that is in place, unlocked, finished, childless and old enough can be moved by any new cleaner |
| `TempLease.InvRename` | conftest.py:516-545 | the rename acts on a name, and still takes away exactly the namespace that was locked and checked |
| `TempLease.InvVerify` | conftest.py:357-386 | the identity recheck after the shared lock keeps the invariant: what is verified is in place and cannot be locked exclusively |
| `TempLease.InvDie` | conftest.py:655-696 | a crash at any point releases locks, leaves markers, and keeps the invariant |
| `TempLease.InvRuns` | conftest.py:569-696 | the protocol invariant holds in every state of every run |
| `WorktreeRecord.CarriedPriorBindings` | scripts/agent_worktree.py:249-290 | the loop with its seen-set computes the first eight first occurrences of displaced branches |
| `WorktreeRecord.FirstOfDistinct` | scripts/agent_worktree.py:249-290 | carried branches are distinct, and neither empty nor the new one |
| `WorktreeRecord.RegisterSound` | scripts/agent_worktree.py:1187-1203 | a registration gives a valid record with no terminal field, whatever it replaces |
| `WorktreeRecord.HeartbeatSoundIff` | scripts/agent_worktree.py:1247-1250 | a heartbeat keeps the record valid if and only if its time is not before the registration |
| `WorktreeRecord.FinishSoundIff` | scripts/agent_worktree.py:1292-1296 | releasing or completing keeps the record valid if and only if its time is not before the last heartbeat |
| `WorktreeRecord.PreserveSound` | scripts/agent_worktree.py:1388-1395 | preserving an expired active record gives a valid one, because active records carry no terminal or pending field |
| `WorktreeRecord.RemovalSound` | scripts/agent_worktree.py:242-299 | both phases of a removal keep validity, and restoring undoes the first phase exactly |
| `WorktreeHistory.RecentByRecency` | scripts/agent_worktree.py:249-290 | the unbounded reference list is ordered by last registration, most recent first |
| `WorktreeHistory.RegisterRefines` | scripts/agent_worktree.py:1187-1202 | one registration keeps the truncated move-to-front list equal to the front of the unbounded one |
| `WorktreeRegistry.Linearizes` | scripts/agent_worktree.py:1122-1408 | every interleaving of operations split into snapshot and commit, where a commit tests only what the second section tests, reaches the registry that the same operations reach one by one, in the order of their commits |
| `WorktreeRegistry.CommitReplacesItsSnapshot` | scripts/agent_worktree.py:1157-1408 | over every run, an operation that commits took its snapshot at an earlier step, replaces exactly the record that it read there, and writes the record computed from it |
| `WorktreeRegistry.EveryRecordValid` | scripts/agent_worktree.py:693-776 | every record reachable by timely operations in any interleaving passes the authority validation |
| `WorktreeRegistry.HistoryRefines` | scripts/agent_worktree.py:249-290 | after any run, current branch and prior bindings are the first nine of the unbounded most-recent-first list of distinct branches registered on that path |
| `WorktreeRegistry.LeaseRespected` | scripts/agent_worktree.py:1076-1144 | an active record stays as it is along every run in which its owner does nothing to it, cleanup does not take it, and others register its path only with times before its expiry |
| `WorktreeRegistry.PreservedForever` | scripts/agent_worktree.py:1299-1408 | from the moment it is preserved as missing, a record never changes in any interleaving |
| `WorktreeRegistry.NoAliasRegistered` | scripts/agent_worktree.py:1102-1119 | neither a preserved path nor an alias is registered afterwards, even by an operation whose snapshot is older |
| `WorktreeStore.Registry.CommitRegister` | scripts/agent_worktree.py:1161-1203 | the commit section succeeds exactly when the state machine allows the step, and then writes its record |
| `WorktreeStore.Registry.CommitUpdate` | scripts/agent_worktree.py:1219-1296 | the same for heartbeat, release and complete, which change the fields one by one |
| `WorktreeStore.Registry.CommitPreserve` | scripts/agent_worktree.py:1362-1408 | the same for preserving a missing worktree; when the branch head moves after the write it raises with the record already preserved |
| `WorktreeStore.Registry.RemoveTargets` | scripts/agent_worktree.py:402-504 | refused without effect unless every target is authorized and listed once; a crash leaves exactly the targets pending, failure undoes them, success retires them |
| `WorktreeStore.Registry.ReconcileRemovedGenerations` | scripts/agent_worktree.py:302-352 | one pass applies the per-record reconciliation to the whole registry, and writes it back if and only if that changes it |
| `WorktreeRemoval.ReconcileExact` | scripts/agent_worktree.py:302-352 | a pending record is restored exactly if its checkout is live with the same generation, retired exactly if it is gone or of another one, left pending exactly if the marker is unreadable |
| `WorktreeRemoval.FailedRemovalUndone` | scripts/agent_worktree.py:465-504 | a failed removal of valid records leaves the registry as it was |
| `WorktreeRemoval.CrashedRemovalReconciles` | scripts/agent_worktree.py:293-352 | over every run between the crash and the next reconciliation: if nobody registered the path, the record from before the removal comes back when its checkout is live, else it is retired, or pending if unreadable; if somebody did and no new removal of the path began, reconciliation leaves that registration alone |
| `WorktreeRemoval.PendingReconciles` | scripts/agent_worktree.py:293-352 | over every run, with any registrations, removals and reconciliations: what is pending is the record that some removal of the path found, marked, and the next reconciliation gives back that record if its checkout is live, else retires it, or leaves it pending if unreadable |
| `WorktreeRemoval.PendingCanBeReplaced` | scripts/agent_worktree.py:1076-1099 | the run in which the record is not given back: any other owner may register a path while its removal is pending |
| `WorktreeRemoval.CrashLeavesPending` | scripts/agent_worktree.py:465-504 | a removal that dies leaves exactly its targets pending, whatever its command did to the checkouts |
| `WorktreeRemoval.RemovedHasCause` | scripts/agent_worktree.py:302-504 | over every run, a record becomes removed only from pending, by the end of a removal whose command succeeded or by a reconciliation that saw the checkout gone or of another generation |
| `WorktreeStore.MarkTargets` | scripts/agent_worktree.py:465-480 | the pending transition covers all targets, and fails exactly when one is listed twice |
| `Retirement.Saga.RetireRemoteCopies` | scripts/git_archive_retirement.py:87-248 | at every step and however it ends, what our pushes removed is on disk as deleted or pending with its object; a call on an existing snapshot deletes nothing; a completed one splits the targets into deleted and retained, the batches partitioning the deleted, and our pushes removed exactly the refs and objects recorded as deleted |
| `Retirement.Saga.RemovedIsRecoverable` | scripts/git_archive_retirement.py:181-248 | every removed ref's object is the recorded one and is in the verified bundle |
| `Retirement.Saga.Retry` | scripts/git_archive_retirement.py:126-147 | the retry path changes neither receipt nor remote unless a batch is pending, and never deletes |
| `Retirement.Saga.Compensate` | scripts/git_archive_retirement.py:59-84 | however others change the remote, it pushes at most once, and that push adds pending refs with their recorded objects where the remote it meets has none; undisturbed, exactly the absent ones; it ends compensated only when the remote holds every pending ref exactly |
| `Retirement.Saga.CompensateTwice` | scripts/git_archive_retirement.py:59-84 | after a compensation that returned, a second one during which nobody else changes the remote pushes nothing |
| `Retirement.RestoringIsIdempotent` | scripts/git_archive_retirement.py:59-84 | a second compensation has nothing to create, existing refs keep their objects, and restoring succeeds if and only if no pending ref was recreated with another object |
| `Retirement.Saga.DeleteBatches` | scripts/git_archive_retirement.py:181-248 | the batch loop accounts for exactly the items it has passed, what it records as deleted is exactly what our pushes removed, and it ends settled |
| `Retirement.Saga.DeleteBatch` | scripts/git_archive_retirement.py:194-246 | the receipt names the batch before the push; a verified deletion removed exactly the batch; once the push was tried, a failure that is caught is compensated before it raises, and one that is not leaves the whole batch pending on disk |
| `Retirement.ProcessedNext` | scripts/git_archive_retirement.py:181-240 | splitting the next items into a batch and retained refs keeps the account a partition |
| `HealthMachine.HealthStateMachine.UpdateUnlocked` | app/health_contract.py:401-456 | the incremental update keeps state, counters and reason equal to closed forms of the applied samples, and the history equal to the twenty latest of all transitions, newest first |
| `HealthMachine.HealthStateMachine.UpdateWithTransition` | app/health_contract.py:343-372 | a sample applies exactly when its number exceeds the watermark; a dropped one changes no state |
| `HealthMachine.HealthStateMachine.ReserveSampleSequence` | app/health_contract.py:374-377 | hands out the next number |
| `HealthMachine.HealthStateMachine.AdvanceSampleSequence` | app/health_contract.py:379-387 | raises the watermark and changes nothing else |
| `HealthMachine.HealthStateMachine.Reset` | app/health_contract.py:315-327 | back to the initial state, invalidating every number handed out so far |
| `HealthMachine.FixedDegraded` | app/health_contract.py:401-450 | with fixed thresholds, degraded if and only if the trailing bad block is long enough, and catching up if and only if it is shorter |
| `HealthMachine.FixedRecovery` | app/health_contract.py:401-450 | with fixed thresholds, recovering if and only if a long enough bad block is followed by some good samples but too few |
| `HealthMachine.TransitionsAlternate` | app/health_contract.py:452-456 | adjacent history entries have distinct states and the newest is the current state |
| `HealthMachine.AppliesIff` | app/health_contract.py:343-387 | a sample applies if and only if its number is greater than everything presented or invalidated before it |
| `HealthMachine.AppliedInOrder` | app/health_contract.py:315-399 | while resets do not lower the watermark, applied samples have strictly increasing numbers, so each applies at most once and none reserved before a reset applies after it |
| `HealthMachine.NeverFallsIff` | app/health_contract.py:315-387 | exact condition: the watermark never falls if and only if at every reset it is at most the count of numbers handed out |
| `HealthMachine.UsesReservedIsSafe` | app/health_contract.py:374-387 | callers who present only numbers that were handed out meet it |
| `HealthMachine.UnreservedBreaksOrder` | app/health_contract.py:315-399 | otherwise the order breaks: a number never handed out applies, a reset lowers the watermark, and a smaller number applies |
| `HealthContract.Contract.ShouldCaptureDependencyIncident` | app/health_contract.py:821-838 | true exactly for an accepted observation that opens an outage |
| `HealthContract.Contract.DependencyOverrideAfter` | app/health_contract.py:840-844 | the reason of the newest accepted observation if that is newer than the caller and down |
| `HealthContract.Contract.CompleteSnapshot` | app/health_contract.py:846-859 | publishes and returns the snapshot with the greatest number completed so far |
| `HealthContract.OlderCannotUnblock` | app/health_contract.py:846-859 | an older evaluation that finishes late returns the blocking snapshot in force |
| `HealthContract.GuardPassesOnlyOnNewestUp` | app/write_guard.py:59-77 | over every interleaving, a completing evaluation gets the newest completed snapshot and passes the guard only if the evaluation behind it found the dependency up |
| `HealthContract.OneIncidentPerOutage` | app/health_contract.py:821-838 | over every interleaving, incidents are the starts of the down periods of the accepted observations, which are in increasing order |
| `HealthContract.OutagesExact` | app/health_contract.py:821-838 | the incident list holds a number if and only if that accepted observation is down and the one before it is not |
| `HealthContract.OutageSilencesOlder` | app/health_contract.py:750-757 | an outage accepted from a newer evaluation makes every older one in flight drop its sample and report the outage |
| `Liveness.LatestStatus` | scripts/dev_delivery_liveness.py:141-181 | refuses exactly the inconsistent histories, else returns the first of the greatest signals |
| `Liveness.GreatestTops` | scripts/dev_delivery_liveness.py:170-181 | no signal is ordered above the latest one |
| `Liveness.StatusHistory` | scripts/dev_delivery_liveness.py:260-300 | returns the whole history or a prefix that passed the cutoff; accepts every ordered consistent history of fewer than 2000 statuses |
| `Liveness.EarlyStopSound` | scripts/dev_delivery_liveness.py:277-299 | if clocks follow the sequence, each sequence has one observation and creation times are truncated write times, the prefix has the latest signal and the latest activity of the whole history |
| `Liveness.SameSecondCannotStop` | scripts/dev_delivery_liveness.py:282-284 | stopping at equal seconds is unsound: of any two activities written in one second it can lose the newer |
| `Liveness.MainHeartbeatHistory` | scripts/dev_delivery_liveness.py:303-333 | reads along the first-parent lineage without repetition, all of the commits without activity and enough of the nearest with one; it must find them when histories are orderly up to an activity or the root within a hundred commits |
| `Liveness.ReadingSuffices` | scripts/dev_delivery_liveness.py:303-333 | what was read decides latest signal and activity as the whole histories of those commits would |
| `Liveness.AliveByTheWhole` | scripts/dev_delivery_liveness.py:303-372 | for a trusted producer, the controller is alive by what was read if and only if it is by the whole histories |
| `Liveness.NoAlarmIff` | scripts/dev_delivery_liveness.py:206-219 | no alarm is raised if and only if the history is consistent and its latest signal is neither a failed start, nor in the future, nor an unexpired or malformed pause |
| `Liveness.QuietActivity` | scripts/dev_delivery_liveness.py:209-219 | then the latest activity carries no unexpired pause either |
| `Liveness.EvaluateGreenIff` | scripts/dev_delivery_liveness.py:199-252 | exactly when an evaluation is green |
| `Liveness.AdmittedBuilds` | scripts/dev_delivery_liveness.py:82-128 | per commit the newest admitted run, newest first; refused exactly when the listing is not exhausted in twenty pages |
| `Liveness.FindWatermark` | scripts/dev_delivery_liveness.py:346-360 | finds the newest build with a valid terminal verdict, all newer ones having none |
| `Liveness.Judge` | scripts/dev_delivery_liveness.py:336-372 | green if and only if the controller is alive: quiet history, newer work within six hours, heartbeat or terminal verdict within two |
| `Liveness.AliveHasNoStaleWork` | scripts/dev_delivery_liveness.py:362-366 | green implies that every build newer than all builds with a valid terminal verdict completed within six hours |
| `Liveness.CheckDelivery` | scripts/dev_delivery_liveness.py:336-372 | whenever it gives a colour, and always when the run listing ends and the lineage is readable and orderly, it is green if and only if the controller is alive by the evidence read, and for a trusted producer if and only if it is alive by the whole histories of the commits read |
| `Census.Procfs.ReadOnce` | scripts/instance_state_writer_inventory.py:524-656 | a record's argv was read between two stats with the start ticks of its token; an inert result was seen between two such stats; a process that stays as it is and can be read settles the attempt, and a terminal failure has a failed read or malformed content behind it |
| `Census.Procfs.LinuxRecord` | scripts/instance_state_writer_inventory.py:516-672 | at most three attempts; fails closed exactly: incomplete if no attempt was terminal, else failed; a gone pid is skipped only when not failing closed; a process that stays as it is and can be read gets its outcome |
| `Census.Procfs.EnumerateLinux` | scripts/instance_state_writer_inventory.py:1622-1650 | every pid of the listing used has a record or was seen inert, all read after that listing, and the result holds nothing else; it refuses only if procfs failed or showed a malformed process, or the table changed in each of three attempts, so never while the table is calm |
| `Census.OneIncarnation` | scripts/instance_state_writer_inventory.py:524-623 | under pid reuse with increasing ticks, equal ticks at two moments mean one incarnation throughout |
| `Census.CensusSound` | scripts/instance_state_writer_inventory.py:1622-1650 | every record's argv and token belong to one incarnation, alive after the listing |
| `Census.CensusComplete` | scripts/instance_state_writer_inventory.py:1622-1650 | every process that ran, not inert, from the listing to the end is in the result under its own token |
| `Census.OneRecordPerPid` | scripts/instance_state_writer_inventory.py:1629-1640 | records are in ascending order of pid, at most one each |
| `Census.SplitKeepsAll` | scripts/instance_state_writer_inventory.py:646-648 | splitting the command line loses, merges and moves no argument |
| `Census.SplitOfTerminated` | scripts/instance_state_writer_inventory.py:646-648 | the arguments a process was started with are the ones its record shows, empty ones included |
| `Replay.Replay` | scripts/heimdal_g1_simulation.py:398-482 | terminates with one record per segment in order, whatever indexes the segments carry: dropped unsent exactly if so designed, else with the hub's final reply; each was taken after its turn came and outside every outage |
| `Replay.Deliver` | scripts/heimdal_g1_simulation.py:378-396 | stops at the first reply that is not retryable, or after all attempts allowed |
| `Replay.QueriesCover` | scripts/heimdal_g1_simulation.py:527-540 | every capture is asked for once, in order, at most a hundred in a query |
| `Replay.Reconcile` | scripts/heimdal_g1_simulation.py:527-547 | whatever the hub's last word did not admit is missing, unanswered batches included, and the rest is counted as admitted |
| `ReplayVerdict.GapRuns` | scripts/heimdal_g1_simulation.py:579-588 | the maximal disjoint runs whose union is the set |
| `ReplayVerdict.RunsUnique` | scripts/heimdal_g1_simulation.py:579-588 | a set has only one such list |
| `ReplayVerdict.AtMonotone` | scripts/heimdal_g1_simulation.py:555-562 | a higher percentile is no smaller |
| `ReplayVerdict.PercentileBounds` | scripts/heimdal_g1_simulation.py:555-562 | a 99th percentile below a bound leaves at most one value in a hundred, rounded up, at or above it |
| `ReplayVerdict.ZeroLostIff` | scripts/heimdal_g1_simulation.py:591-690 | the loss check alone passes if and only if every segment is exactly one of hub-confirmed admitted or dropped by design |
| `ReplayVerdict.ChecksIff` | scripts/heimdal_g1_simulation.py:591-697 | the loss and gap checks pass if and only if every segment is settled and no two dropped ones carry one index |
| `ReplayVerdict.ZeroDuplicatesIff` | scripts/heimdal_g1_simulation.py:591-697 | the counts of the duplicate check agree if and only if every duplicate sent was answered as the same delivery and every admitted segment was echoed |
| `ReplayVerdict.GapsAreDrops` | scripts/heimdal_g1_simulation.py:591-670 | when the loss check passes, the reported gap runs cover exactly the indexes of dropped segments |
| `ReplayVerdict.ReplayAndJudge` | scripts/heimdal_g1_simulation.py:398-697 | the whole chain: it passes if and only if every segment is exactly one of hub-confirmed admitted or dropped by design, by the hub's own replies and answers, no dropped index repeats, every duplicate sent was answered as the same delivery and every admitted segment echoed, and the run keeps up and recovers from its outages; the gaps it then reports are exactly the dropped indexes |
| `ReplayVerdict.PassKeepsUp` | scripts/heimdal_g1_simulation.py:684-697 | a pass means all steady segments but one in a hundred, rounded up, took less than their own length |
| `ComposeEnv.DecodeDoubleQuoted` | scripts/compose_env.py:8-26 | the scan with its escape flag computes the recursive decoding |
| `ComposeEnv.ComposeEnvValue` | scripts/compose_env.py:42-68 | the scanning reader computes the recursive one |
| `ComposeEnv.DecodeEscaped` | scripts/compose_env.py:8-39 | decoding undoes escaping, runs of dollars and backslashes included |
| `ComposeEnv.CloseAtSkipsEscaped` | scripts/compose_env.py:46-58 | the search for the closing quote passes over any escaped text and stops behind it |
| `ComposeEnv.RoundTrip` | scripts/compose_env.py:29-68 | reading back a printed value gives it, for every string |
| `ComposeEnv.RoundTripPadded` | scripts/compose_env.py:29-68 | the same with white space around the literal |
| `ComposeEnv.LiteralInjective` | scripts/compose_env.py:29-39 | two values with one literal are equal |
| `ComposeEnv.CommentDroppedIff` | scripts/compose_env.py:42-68 | a trailing comment is dropped if and only if the value is not empty |

## Left out

- conftest.py: mount probing, scan deadlines and reuse of process ids are an arbitrary refusal of the cleaner; the lock on the parent directory is left out, which allows more interleavings; ancestors without a marker are skipped; creating, locking and writing a marker is one step; directories and locks are one value that steps replace, not files updated in place.
- TempChain.EnclosingChainStays: stated for runs in which no directory name is created twice below the same directory, which temporary names with random suffixes give; LeadsThroughIff and ChainTakenIff hold without it.
- TempPruning.RetainedIff: the direction from safe to retained leaves out states in which a live run has a marker in an enclosing namespace, has its own still to make, and a name on its path is missing or not marked; whether such a run ever goes on depends on what others make and mark there. The other direction, RetainedForever, has no such condition.
- scripts/agent_worktree.py: git state, path canonicalisation and the identity fields that only make an operation refuse more often are nondeterministic; listing, cleanup policy and command line are not modelled.
- WorktreeRegistry.EveryRecordValid: operations whose time precedes the record they replace are excluded; HeartbeatSoundIff and FinishSoundIff say exactly when such an operation spoils the record.
- scripts/git_archive_retirement.py: selection of candidates, the bundle format and resumable pull-request checks are nondeterministic choices; a receipt that compensation cannot write ends it as dying there does.
- app/health_contract.py: dependency probes, settings and message formatting; thresholds may change with every sample.
- scripts/dev_delivery_liveness.py: description and timestamp syntax is parsed already, so two texts of one signal count as equal and a pause always has a readable expiry; the page loop that reads verdicts and the signal writer are not modelled.
- Liveness.EarlyStopSound: says nothing for a producer whose clock does not follow its sequence; such histories are refused only as far as they were read.
- scripts/instance_state_writer_inventory.py: stat syntax, compose inventories and macOS; only the Linux census is modelled, and a listing of procfs is taken at one moment.
- scripts/heimdal_g1_simulation.py: rounding of percentiles, host samples, probes, the restart command, transfer rates and the receipt; delivery times are arbitrary, and segment indexes are natural numbers.
- scripts/compose_env.py: nothing of the parser; callers and files are not modelled.
- app/auth.py, scripts/local_agent_command_guard.py, scripts/fs_watcher.py, mimer_runtime and the llm_contract validators would add only easy members or depend on code outside the repository's core.
