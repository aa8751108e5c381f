# Verified models of the GunnchOS device control plane

This project models, in Dafny, eight components of the GunnchOS device software and proves what they promise.
State that the Python code changes in place is a class here: its methods take the same steps in the same order, and each
is proved to have exactly the effect of a function on values. The theorems about whole runs are then proved of those
functions.

| component | modules |
|---|---|
| Offline sync | `StringOrder`, `VectorClocks`, `OfflineSync` (one engine), `SyncReplica` (one engine, any peer), `SyncReads` (what a reader is told), `SyncSystem` and `SyncCausality` (any number of replicas), `SyncStamps`, `SyncPayload`, `SyncLateWrites`, `SyncLaggingClock` (which value survives), `SyncConvergence`, `SyncLww` (when replicas agree) |
| A/B updates | `OtaMachine` (data and effects), `OtaObject` (the state machine), `OtaRuns` (every run), `OtaLaws` (how attempts end, and the way back) |
| Update and recovery suite | `UpdateRecovery` |
| Connectivity | `Connectivity`, `ConnectivityObject`, `ConnectivityScores`, `ConnectivityRuns`, `ConnectivityLaws` |
| Accounts, bindings, sessions | `Identity`, `IdentityRuns`, `IdentityLaws` |
| Dependency closure | `Closure`, `ClosureTheorems`, `ClosureOrder` |
| Fleet rollout | `Fleet`, `FleetObject`, `FleetRuns`, `FleetLaws` |
| Measured boot | `Attestation`, `AttestationObjects`, `AttestationTheorems`, `CanonicalJson`, `AttestationSigning`, `AttestationLaws` |
| Shared | `Options` |

## Main results

**Offline sync.** The system has any number of replicas with distinct ids and empty stores; every record ever held
anywhere may be delivered to anyone at any time, so records may be lost, duplicated and reordered. The invariant
`SyncSystem.Inv` says that no record is ahead of a replica in that replica's own component, that a record that has seen a
tick has seen everything behind it, and that a ghost history of who was derived from whom is exactly the clock order.
From it follow causality, the version as a scalar clock, freshness, uniqueness and replay safety. A concurrent merge keeps
the payload and stamp of one side but ticks the merging replica, so which value survives is a separate matter: with unique
stamps and writers whose clock is not behind what they overwrite, every record shows the newest user write it has seen,
and records that have seen the same writes show the same value. The second condition is exact: a write replaces a value
for good if and only if its clock is not behind what it replaces (`SyncLateWrites.ReplacesForGoodIff`; the only-if half
needs one other replica that does not have the key yet). Under last-write-wins the same two conditions make replicas that
have seen the same records hold equal stores over whole runs, and again the second is exact. All of
this is also told by the calls alone (`SyncReads`, `SyncLww.ReadsLatestCall`): a read is told the argument of the newest
call its record has seen.

**A/B updates.** Runs are all interleavings of the public calls, injected faults, what the recovery suite does to the
machine directly (failures from outside, rewriting the staged slot) and factory resets. The history is always a path in the
table, attempts are bounded by twelve transitions if both slots can boot, committed slots hold exactly a checked package,
and nothing before the reboot touches the running slot. The running slot stays known good under a guard that is exact call
by call (`SafeIsExact`): a rollback of a *failed* attempt may land on a slot that was never health-checked or that is older,
which the code allows (`RollbackOfFailureCanDowngrade`) and the intended use excludes. `OtaLaws` adds what the machine
achieves: how every attempt ends, that it commits exactly for an admissible package without faults, that one round of
calls leads back to idle from everywhere but a download left half-way from outside, and that updates can go on for ever.

**Connectivity.** Every evaluation reaches a fixpoint in one step, and ends on a usable bearer, exactly if some bearer
scores above minus infinity. Over any interleaving of observations, faults and evaluations that keeps the score of the
active bearer finite, hysteresis times the number of better-score switches is paid for by score. And a
better bearer is taken if and only if one beats the active one by the hysteresis (`TakesBetterIff`).

**Accounts.** Validation answers exactly what a plain reading of the history of calls says, whatever was validated before,
and a rejection is final as long as time does not go back. A valid answer names the account, device and roles the
session was issued for.

**Closure.** The worklist terminates and computes reachability. A name reported missing can be present all the same;
`AbsenceIsFinalIff` says for which stores it cannot. The order is breadth first, and a second run changes nothing.

**Fleet.** From any start a rollout is aborted exactly when the accepted failures reach the threshold
(`AbortedIffFailuresReported`). Flags, targets and versions over every run; a rollback leaves no rolled-out version
behind under a guard on the start of rollouts that is exact for that promise (`StartLeavesNoTraceIff`); after an abort
nothing moves on until the next start, and no target is left exactly when the threshold is positive (`StartIsCleanIff`).

**Measured boot.** Registers agree exactly when everything up to them agrees, or a hash collision is exhibited; what the
builder makes is accepted if and only if four plain conditions hold of its input; and because the canonical text of a body
is unambiguous, a signature binds the whole document or a collision of the keyed digest is exhibited.

## Where the code differs from what one might expect

- Clock equality is equality of dictionaries (`offline_sync.py` lines 61 and 181). An explicit zero makes a clock differ
  from its equal, and then replay is not idempotent. Clocks made by the engines have no zeros, and this is proved.
- Two replicas that keep exchanging a conflict at the same time agree on the value but never on the clock.
- `reset_to_idle` stays possible from every resting state (`OtaLaws.ResetIff`), but `rollback` in the failed state swaps
  slots even when the attempt failed before anything was applied.
- The comment in `rollback` (`ota_state_machine.py` line 251) speaks of a slot that was previously successful; the code asks
  only whether it can boot.
- The degrading connectivity fault can raise a score: it sets the signal to -88 dBm even if it was worse or unknown.
- No public call gets the machine out of the downloading state: `download` never stops there, but the recovery suite leaves
  it there and then fails it directly.
- Suspending an account ends none of its sessions.
- A session marked expired is judged by its expiry time again on the next call, not by the mark.
- A package reported missing by the closure may be there: a later copy may bring it along, and a copy that stops with an
  error may have written its manifest before.
- With a sink preference of minus infinity and nothing usable, evaluating switches to the first bearer listed although it
  cannot be used, and back to the sink at the next evaluation.
- Verification raises, instead of reporting an error, on a signature that is not ASCII text and on an unknown stage.
- An empty target version reads as no target.

## Model

| member | source | states |
|---|---|---|
| VectorClocks.HappensBefore | gunnchos_device_os/offline_sync.py:45-55 | the loop over the union of keys, with its early exit, decides the strict pointwise order over all replica identifiers, a missing entry reading as zero |
| VectorClocks.ConcurrentWith | gunnchos_device_os/offline_sync.py:57-62 | neither before the other and not the same dictionary; on clocks without explicit zeros that is exactly incomparability in the pointwise order |
| VectorClocks.BeforeIsStrictOrder | gunnchos_device_os/offline_sync.py:45-55 | happens-before is irreflexive, asymmetric and transitive on all clocks, explicit zeros and negative counters included |
| VectorClocks.MergeIsJoin | gunnchos_device_os/offline_sync.py:39-43 | merge is the least upper bound: above both clocks, and below every clock that is above both |
| VectorClocks.TickAdvances | gunnchos_device_os/offline_sync.py:34-37 | a tick is strictly later than the clock it started from |
| VectorClocks.PositiveAntisymmetric | gunnchos_device_os/offline_sync.py:57-62 | without zero entries, pointwise equal clocks are the same dictionary, so dictionary equality and the order agree |
| VectorClocks.EqualDictionariesIffEqualKeys | gunnchos_device_os/offline_sync.py:45-62 | pointwise equal clocks are the same dictionary if and only if they list the same replicas: the exact role of explicit zeros |
| StringOrder.Trichotomy | gunnchos_device_os/offline_sync.py:164 | the string order behind the replica-id tie break is total and irreflexive |
| StringOrder.Transitive | gunnchos_device_os/offline_sync.py:164 | the string order behind the replica-id tie break is transitive |
| OfflineSync.OfflineSyncEngine.constructor | gunnchos_device_os/offline_sync.py:111-118 | a new engine has an empty store, queue and conflict log |
| OfflineSync.OfflineSyncEngine.Put | gunnchos_device_os/offline_sync.py:120-135 | the record returned holds the value given and is live, the key now holds it, and a read is told that value; own tick on the stored clock, version one up, own stamp; it is queued; other keys and the conflict log are untouched |
| OfflineSync.OfflineSyncEngine.Delete | gunnchos_device_os/offline_sync.py:137-151 | the same with a null value and the tombstone flag, so a read is told null |
| OfflineSync.OfflineSyncEngine.ClearQueue | gunnchos_device_os/offline_sync.py:156-157 | empties the queue and nothing else |
| OfflineSync.OfflineSyncEngine.LwwChoice | gunnchos_device_os/offline_sync.py:159-176 | the four-way comparison picks the remote record exactly when its (wall time, replica id) is greater, and reports which side won and why |
| OfflineSync.OfflineSyncEngine.ApplyRemote | gunnchos_device_os/offline_sync.py:178-247 | both policies: adopt, keep, take over or merge-and-tick according to the pointwise order; a conflict is logged exactly when reported, with the value that is kept; the status says which |
| OfflineSync.OfflineSyncEngine.SyncFromPeer | gunnchos_device_os/offline_sync.py:249-259 | records are applied in the given order, each status is the one of its moment, then the queue is empty |
| OfflineSync.OfflineSyncEngine.Get | gunnchos_device_os/offline_sync.py:261-265 | the value of the stored record, or null: a deleted key and a missing key read the same |
| SyncReads.WriteThenRead | gunnchos_device_os/offline_sync.py:120-151 | a read after a put is told the value put, after a delete null, whatever the key held before; other keys read as before; version and own clock entry are one up |
| SyncReads.FirstRecordIsRead | gunnchos_device_os/offline_sync.py:210-219 | a record for a key not held is read as it was sent, without a conflict |
| SyncReads.LastWriteWins | gunnchos_device_os/offline_sync.py:159-176 | the later wall time is kept, on a tie the greater replica identifier, and what was there if both are equal |
| SyncReads.LastWriteWinsMerges | gunnchos_device_os/offline_sync.py:185-198 | a concurrent merge keeps the payload by the same comparison, with a version one above the greater of both |
| SyncReads.ConflictTellsTruth | gunnchos_device_os/offline_sync.py:159-247 | a logged conflict names both records, the side that is kept, and the comparison that decided |
| SyncReads.RunKeepsCalls | gunnchos_device_os/offline_sync.py:120-151 | over every run, each record made by a call shows that call's argument, kind, time and maker, where the calls are kept apart from the records |
| SyncReads.ShowsNewestCall | gunnchos_device_os/offline_sync.py:120-247 | over every run with writers ahead and stamps unused, every record shows the argument of the newest call it has seen, and is a tombstone exactly if that was a delete |
| SyncReads.ReadsNewestCall | gunnchos_device_os/offline_sync.py:261-265 | so a read at any replica is told the argument of the newest call its record has seen, and null if that was a delete |
| SyncReads.WriteIsSeen | gunnchos_device_os/offline_sync.py:120-151 | the call just made is among the calls seen, and is what a read is told |
| SyncReplica.ApplyCoversBoth | gunnchos_device_os/offline_sync.py:178-247 | vector policy: after any record, valid or not, the stored clock covers it and every stored clock has only grown |
| SyncReplica.RedeliveryIsNoOpIff | gunnchos_device_os/offline_sync.py:181-182 | a covered record leaves store and conflict log alone if and only if the clocks are not pointwise equal or list the same replicas |
| SyncReplica.ExplicitZeroBreaksReplay | gunnchos_device_os/offline_sync.py:57-62 | a concrete record with an explicit zero for which replay is not idempotent: a conflict between a record and itself |
| SyncReplica.ReplayIsSafe | gunnchos_device_os/offline_sync.py:178-182 | with clocks that have no zero entries, a covered record changes nothing at all |
| SyncReplica.ConflictLoggedIffConcurrent | gunnchos_device_os/offline_sync.py:185-198 | with clocks that have no zero entries, a conflict is logged exactly when neither version has seen the other, and the merged clock is strictly later than both |
| SyncSystem.StepKeepsInv | gunnchos_device_os/offline_sync.py:120-247 | every put, delete and delivery of any record ever held anywhere keeps the global invariant: own components are never overtaken, a tick carries its history, clocks are unique, the clock order is derivation, versions follow it |
| SyncSystem.RunKeepsInv | gunnchos_device_os/offline_sync.py:120-247 | the global invariant over whole runs with losses, duplicates and reordering |
| SyncSystem.MintKeepsInv | gunnchos_device_os/offline_sync.py:120-198 | storing any record that joins its parents and adds a fresh tick keeps the whole invariant; writes and merges are both of this kind |
| SyncSystem.WriteMints | gunnchos_device_os/offline_sync.py:120-151 | a put or delete adds a tick no record of the key has, on top of one parent that carries all earlier ticks of the replica |
| SyncSystem.MergeMints | gunnchos_device_os/offline_sync.py:188-196 | a concurrent merge adds a tick no record of the key has, on top of both records it joins |
| SyncSystem.AdoptKeepsInv | gunnchos_device_os/offline_sync.py:210-230 | a delivery that stores, replaces or ignores keeps the invariant |
| SyncSystem.MintHistory | gunnchos_device_os/offline_sync.py:45-55 | what a new record was derived from, through any chain of writes and merges, is exactly what its clock is above |
| SyncCausality.TickImpliesHistory | gunnchos_device_os/offline_sync.py:34-55 | causality, in every reachable state: a record that carries the tick that made x carries all of x |
| SyncCausality.ClocksCharacteriseDerivation | gunnchos_device_os/offline_sync.py:45-55 | x was used, directly or through other records, to make y if and only if the clock of x is strictly below that of y |
| SyncCausality.VersionFollowsCausality | gunnchos_device_os/offline_sync.py:193-194 | an earlier clock has a smaller version, even across merges that take max plus one: the version is a scalar clock |
| SyncCausality.EqualClocksSameRecord | gunnchos_device_os/offline_sync.py:181-182 | equal clocks of a key mean the identical record, so keeping the local one loses nothing |
| SyncCausality.TicksAreFresh | gunnchos_device_os/offline_sync.py:34-37 | the clock of a record a step adds is not covered by any record of the key that existed before, anywhere |
| SyncCausality.RunGrows | gunnchos_device_os/offline_sync.py:120-247 | over any run, a replica keeps every key it has and its clock for it only grows |
| SyncCausality.RedeliveryNeverMatters | gunnchos_device_os/offline_sync.py:181-182 | once delivered, a record stays covered for ever, and delivering it again after any further run leaves the whole system as it is |
| SyncPayload.StampsDeterminePayloads | gunnchos_device_os/offline_sync.py:185-196 | if no replica reuses a wall time for a key, equal stamps mean equal value and tombstone in every reachable state, however often the payload was merged along |
| SyncPayload.PayloadIsNewestWriteSeen | gunnchos_device_os/offline_sync.py:185-196 | if no write is stamped older than what it replaces, every record shows the newest by stamp of all user writes it was derived from |
| SyncPayload.SameWritesSamePayload | gunnchos_device_os/offline_sync.py:178-198 | strong convergence: records that have seen the same user writes show the same payload, whatever the order of deliveries and merges |
| SyncPayload.ReplacedNeverReturns | gunnchos_device_os/offline_sync.py:178-198 | a value that was overwritten or deleted never comes back in a record that has seen the write |
| SyncPayload.WriteKeepsOrderIff | gunnchos_device_os/offline_sync.py:120-151 | call by call, a write keeps stamps in step with causality if and only if its wall clock is not behind the record it replaces |
| SyncPayload.MintKeepsOrder | gunnchos_device_os/offline_sync.py:120-198 | stamps keep following clocks through every write and merge that is not stamped older than a parent |
| SyncLateWrites.ReplacesForGoodIff | gunnchos_device_os/offline_sync.py:159-198 | exact for the promise itself, wherever stamps follow causality and another replica lacks the key: no continuation shows the replaced value in a record that has seen the write, if and only if the write is not stamped older than what it replaces |
| SyncLateWrites.ReachableReplacesForGoodIff | gunnchos_device_os/offline_sync.py:120-247 | so it is in every state reachable with unused stamps and writers ahead |
| SyncLateWrites.StaysReplacedIfLater | gunnchos_device_os/offline_sync.py:159-198 | the if half needs no other replica: over all continuations with writers ahead and stamps unused |
| SyncLateWrites.ValueReturns | gunnchos_device_os/offline_sync.py:178-198 | the only-if half: in every such state three steps of one other replica bring the replaced value back, all of them writes and deliveries the conditions allow |
| SyncLaggingClock.DeletedValueReturns | gunnchos_device_os/offline_sync.py:159-198 | a concrete run of three replicas, one with a lagging wall clock, in which a value that was seen and deleted is shown again |
| SyncConvergence.ExchangeAgrees | gunnchos_device_os/offline_sync.py:178-198 | two versions exchanged: both sides show the same payload, that of the later version if one had seen the other and of the newer stamp otherwise |
| SyncConvergence.ExchangesConverge | gunnchos_device_os/offline_sync.py:178-198 | from the first exchange on both sides show that payload after any number of exchanges |
| SyncConvergence.ExchangesNeverSettle | gunnchos_device_os/offline_sync.py:193 | exchanging at the same time never ends a conflict: concurrent clocks are concurrent after any number of rounds |
| SyncConvergence.ExchangeSettlesIff | gunnchos_device_os/offline_sync.py:178-198 | after one exchange both hold the identical record, for good, if and only if the versions were not concurrent |
| SyncConvergence.TakingTurnsSettles | gunnchos_device_os/offline_sync.py:178-198 | taking turns ends a conflict: both then hold the identical record and a further turn changes nothing |
| SyncConvergence.ReachableAreDistinguishable | gunnchos_device_os/offline_sync.py:120-198 | the assumptions of the exchange results hold of any two records of a key in every reachable state in which no stamp was reused |
| SyncConvergence.RoundIsExchange | gunnchos_device_os/offline_sync.py:200-247 | inside a running system of any number of replicas, delivering to each of two what the other held is exactly such an exchange, and keeps the invariant |
| SyncConvergence.ReplicasConverge | gunnchos_device_os/offline_sync.py:200-259 | after any run, two replicas that exchange a key show the same payload after one round and keep it over any number of further rounds |
| SyncConvergence.StoreIsMaximum | gunnchos_device_os/offline_sync.py:210-222 | last-write-wins: after any deliveries the store is, key by key, the greatest by stamp of what the engine had and what it was sent |
| SyncConvergence.LwwConverges | gunnchos_device_os/offline_sync.py:210-222 | strong eventual consistency: same records had or sent, in any order and multiplicity, means equal stores |
| SyncConvergence.MutualSyncEqualises | gunnchos_device_os/offline_sync.py:249-250 | two engines that sync from each other's stores end with equal stores |
| SyncConvergence.PairConvergesIff | gunnchos_device_os/offline_sync.py:159-167 | the assumption is exact: two records exchanged under last-write-wins agree if and only if their stamps differ or they are the same record |
| SyncLww.RunKeepsSound | gunnchos_device_os/offline_sync.py:120-222 | over every run of last-write-wins replicas: stores hold records that were sent; with unused stamps a stamp names one record; with no write behind what it replaces every store is the greatest of what its replica has seen |
| SyncLww.ReachableStampsName | gunnchos_device_os/offline_sync.py:120-222 | the assumption of the last-write-wins results holds in every reachable state in which no stamp was reused |
| SyncLww.ReachableConverge | gunnchos_device_os/offline_sync.py:210-222 | so any two replicas of a running system that had or are sent the same records end with equal stores, in any order and multiplicity |
| SyncLww.SameSeenSameStore | gunnchos_device_os/offline_sync.py:120-222 | strong eventual consistency over whole runs, local writes included: replicas that have seen the same records hold equal stores |
| SyncLww.LateWriteSplitsIff | gunnchos_device_os/offline_sync.py:120-176 | the condition on the wall clock is exact: a replica that wrote agrees with a new one that is sent all it has seen if and only if the write was not behind what it replaced |
| SyncLww.RunKeepsCalls | gunnchos_device_os/offline_sync.py:120-151 | over every run of last-write-wins replicas, every record sent shows the argument, kind and time of the call that made it |
| SyncLww.ReadsLatestCall | gunnchos_device_os/offline_sync.py:210-265 | over such runs with writers ahead and stamps unused, a read is told the argument of the latest call among all the replica has seen |
| SyncStamps.NewerTrichotomy | gunnchos_device_os/offline_sync.py:160-167 | of two stamps exactly one is newer, unless they are equal |
| SyncStamps.NewerTransitive | gunnchos_device_os/offline_sync.py:160-167 | newer is transitive, and so is not newer |
| OtaObject.OtaStateMachine.constructor | gunnchos_device_os/ota_state_machine.py:103-121 | idle on slot A, with the two factory slots |
| OtaObject.OtaStateMachine.InjectFault | gunnchos_device_os/ota_state_machine.py:126-128 | adds the fault and changes nothing else |
| OtaObject.OtaStateMachine.ClearFaults | gunnchos_device_os/ota_state_machine.py:130-131 | removes all faults and changes nothing else |
| OtaObject.OtaStateMachine.Transition | gunnchos_device_os/ota_state_machine.py:133-146 | moves and records the event exactly when the table allows it; otherwise raises and changes nothing |
| OtaObject.OtaStateMachine.FailWith | gunnchos_device_os/ota_state_machine.py:148-151 | stores the error even when the transition to the failed state is refused |
| OtaObject.OtaStateMachine.CheckForUpdate | gunnchos_device_os/ota_state_machine.py:156-176 | the whole new state and outcome, for every state, package and slot: current version, anti-rollback, redirected target |
| OtaObject.OtaStateMachine.Download | gunnchos_device_os/ota_state_machine.py:178-185 | the whole new state and outcome, in every state and with every fault |
| OtaObject.OtaStateMachine.Verify | gunnchos_device_os/ota_state_machine.py:187-198 | the whole new state and outcome: fault, signature flag and digest length in the order of the code |
| OtaObject.OtaStateMachine.Stage | gunnchos_device_os/ota_state_machine.py:200-206 | the whole new state and outcome, in every state and with every fault |
| OtaObject.OtaStateMachine.Apply | gunnchos_device_os/ota_state_machine.py:208-221 | writes the package into its target slot as bootable and not yet successful, one field after the other, or fails before touching it |
| OtaObject.OtaStateMachine.SimulateReboot | gunnchos_device_os/ota_state_machine.py:223-233 | switches the running slot to the target or fails before switching |
| OtaObject.OtaStateMachine.CheckHealth | gunnchos_device_os/ota_state_machine.py:235-244 | commits the running slot, or rolls back at once |
| OtaObject.OtaStateMachine.Rollback | gunnchos_device_os/ota_state_machine.py:246-262 | swaps to the other slot if that can boot, marking the running one unsuccessful; otherwise fails; an empty last error counts as none |
| OtaObject.OtaStateMachine.ResetToIdle | gunnchos_device_os/ota_state_machine.py:264-271 | done exactly in the four resting states, the committed one included, and then idle without package and error; otherwise raises and changes nothing |
| OtaObject.OtaStateMachine.RunHappyPath | gunnchos_device_os/ota_state_machine.py:273-282 | the calls in order, ending at the first that raises |
| OtaRuns.HistoryIsPath | gunnchos_device_os/ota_state_machine.py:49-63 | after any calls, faults, interruptions and resets, the history links up event by event, stays in the table and ends in the current state |
| OtaRuns.RunExtends | gunnchos_device_os/ota_state_machine.py:133-151 | path soundness from any state reached between calls; and slots that can both boot stay so, with every transition not leaving idle lowering a rank |
| OtaRuns.AttemptIsBounded | gunnchos_device_os/ota_state_machine.py:49-63 | with bootable slots an attempt, from leaving idle to the next visit, takes at most twelve transitions whatever is called |
| OtaRuns.RollbackCycleIff | gunnchos_device_os/ota_state_machine.py:254-255 | any number of rollbacks of a failed attempt ends in the failed state again, two events longer each time, if and only if the other slot cannot boot: the cycle of the table; otherwise the first one is the last that counts |
| OtaRuns.GateAlwaysHolds | gunnchos_device_os/ota_state_machine.py:156-244 | commit gate over every run: no package in idle; the inactive slot is the target until the reboot; signed and full digest from staging on; the committed slot holds exactly the package |
| OtaRuns.NoCallMissesItsPackage | gunnchos_device_os/ota_state_machine.py:190-230 | in no reachable state does verify miss its package, or apply or reboot hit its assertion |
| OtaRuns.InterruptionIsSafe | gunnchos_device_os/update_recovery_completeness.py:107-156 | from idle, no sequence of calls, faults, interruptions and rewrites of the staged slot without a completed reboot, rollback or wiping reset touches the running slot |
| OtaRuns.BeforeRebootRun | gunnchos_device_os/ota_state_machine.py:148-228 | the same for every prefix that starts anywhere before the reboot |
| OtaRuns.SafeIsExact | gunnchos_device_os/ota_state_machine.py:208-262 | call by call, the running slot stays known good if and only if the guard holds; the guard is about the rollback of a failed attempt, meddling from outside during a health check, and wiping resets |
| OtaRuns.RunningSlotStaysGood | gunnchos_device_os/ota_state_machine.py:208-262 | known-good slot over every run of guarded calls: health-checked, bootable and not below the floor, or, during a health check, with such a slot to fall back to |
| OtaRuns.IntendedUseKeepsGoodSlot | gunnchos_device_os/ota_state_machine.py:235-262 | with rollback entered only out of a health check, and interruptions, invalidations and preserving resets only outside one, the running slot has passed its health check whenever none is under way, and is not older than at the start |
| OtaRuns.IdleVersionsNeverDrop | gunnchos_device_os/ota_state_machine.py:162-163 | in such runs the security version of the running slot never drops between any two visits to idle |
| OtaRuns.RollbackOfFailureCanDowngrade | gunnchos_device_os/ota_state_machine.py:246-262 | a concrete run in which rolling back a check that failed lands on a slot with a lower security version |
| OtaRuns.HappyPathCommitsIff | gunnchos_device_os/ota_state_machine.py:273-282 | commits if and only if the version is new, the security version not lower, the signature flag set and the digest of length 64; then the old slot is kept as it was; otherwise no slot is changed |
| OtaLaws.ResetIff | gunnchos_device_os/ota_state_machine.py:264-271 | a reset is done if and only if the machine is committed, rolled back, failed or idle; it forgets package and error and touches neither slots nor faults |
| OtaLaws.CallsWaitTheirTurn | gunnchos_device_os/ota_state_machine.py:156-244 | in every reachable state each of the seven steps is done in its own state and in no other, and out of turn changes nothing |
| OtaLaws.RollbackIff | gunnchos_device_os/ota_state_machine.py:246-262 | a rollback is done if and only if the machine rolls back, has failed or is in a health check; both slots, package and error afterwards, whether or not the other slot can boot |
| OtaLaws.RefusedLeavesNothing | gunnchos_device_os/ota_state_machine.py:156-176 | a package that is current or too old leaves no trace after a reset but in the history |
| OtaLaws.HomeIff | gunnchos_device_os/ota_state_machine.py:178-271 | from every state that runs reach, one round of calls leads back to idle, whatever faults are injected, if and only if no download was begun and left there from outside |
| OtaLaws.NoDeadEnd | gunnchos_device_os/ota_state_machine.py:148-151 | from that state, too, after one interruption: no reachable state is a dead end |
| OtaLaws.AlwaysAWayHome | gunnchos_device_os/ota_state_machine.py:156-271 | so it is after any run from a fresh machine |
| OtaLaws.OnlyOutsideEndsDownload | gunnchos_device_os/ota_state_machine.py:178-185 | no public call but a factory reset or an interruption from outside ends the downloading state once it is left there |
| OtaLaws.AttemptEnds | gunnchos_device_os/ota_state_machine.py:156-244 | how an attempt ends for every package, set of faults and health: nothing if the version is current, else failed for the first trouble in the order of the code, else committed or rolled back with both slots stated |
| OtaLaws.AttemptCommitsIff | gunnchos_device_os/ota_state_machine.py:156-244 | an attempt commits if and only if the package is admissible, none of the six faults is injected and the new slot is healthy |
| OtaLaws.FaultsLastUntilCleared | gunnchos_device_os/ota_state_machine.py:126-131 | an injected fault stops every attempt until faults are cleared |
| OtaLaws.FactoryResetStartsClean | gunnchos_device_os/update_recovery_completeness.py:174-209 | after a factory reset in any state the next attempt commits exactly for an admissible package; slots are kept or only lose their versions |
| OtaLaws.UpdateInstalls | gunnchos_device_os/ota_state_machine.py:264-282 | a happy path and a reset install an admissible package in the other slot and are back in idle with the old one to fall back to |
| OtaLaws.UpdatesGoOn | gunnchos_device_os/ota_state_machine.py:264-282 | any succession of admissible packages is installed, one after the other, in alternating slots |
| OtaLaws.FailuresAreRecorded | gunnchos_device_os/ota_state_machine.py:148-262 | over every run whose interruptions the table allows, a failed machine gives as error the reason of the last event, and a rolled-back one gives some reason |
| UpdateRecovery.UpdateRecoverySuite.constructor | gunnchos_device_os/update_recovery_completeness.py:53-66 | a fresh machine and the initial user state |
| UpdateRecovery.UpdateRecoverySuite.CorruptDownloadRecovers | gunnchos_device_os/update_recovery_completeness.py:82-105 | the scenario passes for all digests of length 64: failure, reset without a swap, and a clean retry that commits slot B |
| UpdateRecovery.UpdateRecoverySuite.Prepare | gunnchos_device_os/update_recovery_completeness.py:114-133 | the calls up to the point of interruption bring a fresh machine there, with slot A untouched |
| UpdateRecovery.UpdateRecoverySuite.Strike | gunnchos_device_os/update_recovery_completeness.py:114-138 | the interruption at each of the five points is a run of the machine that ends in the failed state |
| UpdateRecovery.StrikeIsRun | gunnchos_device_os/update_recovery_completeness.py:114-138 | what the suite does to the machine directly is exactly a run of the modelled operations |
| UpdateRecovery.StrikeIsIntended | gunnchos_device_os/update_recovery_completeness.py:107-138 | the five interruptions are part of the intended use and swap nothing, so the results on known-good slots cover them |
| UpdateRecovery.UpdateRecoverySuite.InterruptedUpdate | gunnchos_device_os/update_recovery_completeness.py:107-156 | at each of the five points the scenario passes: idle again on the old slot, which is as it was; the other slot is changed only by an interruption after apply, and then marked unsuccessful |
| UpdateRecovery.UpdateRecoverySuite.RollbackAfterBadHealth | gunnchos_device_os/update_recovery_completeness.py:158-172 | the scenario passes: rolled back to slot A, with slot B marked unsuccessful |
| UpdateRecovery.UpdateRecoverySuite.FactoryReset | gunnchos_device_os/update_recovery_completeness.py:174-209 | user state cleared and machine idle; slots keep everything, or only lose their versions and run A |
| UpdateRecovery.UpdateRecoverySuite.RunAll | gunnchos_device_os/update_recovery_completeness.py:211-235 | all nine scenarios pass and are recorded in order, and the machine ends idle on a slot A that is known good |
| ConnectivityObject.ConnectivityOrchestrator.constructor | gunnchos_device_os/connectivity_orchestrator.py:98-134 | starts on the sink with nothing observed; an empty profile supports everything |
| ConnectivityObject.ConnectivityOrchestrator.UpdateMetrics | gunnchos_device_os/connectivity_orchestrator.py:175-187 | an unsupported bearer is refused; the sink is stored as available whatever was observed |
| ConnectivityObject.ConnectivityOrchestrator.InjectFault | gunnchos_device_os/connectivity_orchestrator.py:142-170 | each fault changes exactly the observations it names, the active bearer only if it is a real one |
| ConnectivityObject.ConnectivityOrchestrator.ClearFaults | gunnchos_device_os/connectivity_orchestrator.py:172-173 | forgets the faults, not their effects |
| ConnectivityObject.ConnectivityOrchestrator.TransitionTo | gunnchos_device_os/connectivity_orchestrator.py:284-311 | switches, classifies the new state by target and score, and records one transition with the scores of before |
| ConnectivityObject.ConnectivityOrchestrator.Evaluate | gunnchos_device_os/connectivity_orchestrator.py:238-282 | the decision, its reason and the new state; exactly one transition is recorded when it switches and none otherwise |
| ConnectivityObject.ConnectivityOrchestrator.ApplyDecisionBearer | gunnchos_device_os/connectivity_orchestrator.py:329-359 | the named bearer is switched to unless active already; the record returned is the one logged, or a hold that is not logged |
| ConnectivityScores.QualityLowerBound | gunnchos_device_os/connectivity_orchestrator.py:201-231 | whatever was observed, infinities and not-a-number included, an available real bearer scores at least the availability weight |
| ConnectivityScores.QualityMonotone | gunnchos_device_os/connectivity_orchestrator.py:201-231 | improving any observed axis never lowers the score, through all clamps and defaults |
| ConnectivityScores.DegradingNeverHelpsIff | gunnchos_device_os/connectivity_orchestrator.py:156-160 | the degrading fault lowers no score under any non-negative weights if and only if the signal was at least -88 and the loss not minus infinity; otherwise it can raise one |
| ConnectivityScores.RankingIsStableOrder | gunnchos_device_os/connectivity_orchestrator.py:233-236 | the ranking is a permutation of the bearers by descending score, ties in listed order |
| ConnectivityScores.BestIsBest | gunnchos_device_os/connectivity_orchestrator.py:240-241 | the candidate scores at least as much as every bearer; the sink is candidate only if it beats every real bearer outright; a tie of all at minus infinity goes to the first listed |
| ConnectivityRuns.EvaluateIsSoundIff | gunnchos_device_os/connectivity_orchestrator.py:238-282 | after an evaluation the active bearer is supported and available, and the state is offline exactly when it is the sink, if and only if some bearer scores above minus infinity or the first listed was active and has just gone |
| ConnectivityRuns.EvaluateIsIdempotentIff | gunnchos_device_os/connectivity_orchestrator.py:238-282 | a fixpoint in one step, for any weights and hysteresis: evaluating again on the same observations changes nothing if and only if some bearer scores above minus infinity or the first listed is observed available; otherwise it flaps |
| ConnectivityRuns.FaultsAreFelt | gunnchos_device_os/connectivity_orchestrator.py:142-170 | after the next evaluation a dropped or jammed bearer is left; with all real bearers forced down the sink is active if and only if it scores or the first listed was active |
| ConnectivityRuns.LeavesOffline | gunnchos_device_os/connectivity_orchestrator.py:197-199 | with non-negative weights and the availability weight ahead of the sink by the hysteresis, it is never offline after an evaluation while a real bearer is usable |
| ConnectivityRuns.DefaultGap | gunnchos_device_os/connectivity_orchestrator.py:74-84 | the default weights are ahead of the sink for every preference in 0..1 and every hysteresis up to 995 |
| ConnectivityRuns.LeavesOfflineIff | gunnchos_device_os/connectivity_orchestrator.py:245-253 | for any weights: the sink is left if and only if it scores minus infinity or some usable real bearer is as good and better by the hysteresis |
| ConnectivityRuns.SinkStaysUp | gunnchos_device_os/connectivity_orchestrator.py:184-186 | no run of observations, faults and evaluations takes the sink down |
| ConnectivityRuns.SwitchesArePaidFor | gunnchos_device_os/connectivity_orchestrator.py:251-253 | amortised hysteresis: hysteresis times the number of better-score switches is at most the score gained plus what updates took from the active bearer, over every interleaving in which that keeps a finite score |
| ConnectivityRuns.SwitchesAreBounded | gunnchos_device_os/connectivity_orchestrator.py:251-253 | so with scores in a band and little drop, the number of switches is bounded however often it evaluates |
| ConnectivityLaws.TakesBetterIff | gunnchos_device_os/connectivity_orchestrator.py:245-253 | the active bearer is left for a better one if and only if some bearer beats it by the hysteresis, whichever is active, and the one taken is outscored by none |
| ConnectivityLaws.NoneBeatsAfterwards | gunnchos_device_os/connectivity_orchestrator.py:238-282 | after any evaluation that ends on a finite score no bearer beats the active one by the hysteresis |
| ConnectivityLaws.LeavesUnusable | gunnchos_device_os/connectivity_orchestrator.py:247-250 | a bearer that cannot be used is left for one that no other outscores |
| ConnectivityLaws.DegradedIff | gunnchos_device_os/connectivity_orchestrator.py:255-282 | on a real bearer the state is degraded exactly if no bearer scores twenty, and connected otherwise |
| ConnectivityLaws.SwitchesLink | gunnchos_device_os/connectivity_orchestrator.py:284-311 | over every run with some score the recorded switches form one chain to the active bearer: no change goes unrecorded |
| ConnectivityLaws.ScoreIsWeightedGrades | gunnchos_device_os/connectivity_orchestrator.py:201-231 | the score is the availability weight plus ten times each grade times the weight of its own axis, with the range of every axis |
| ConnectivityLaws.NonsenseIsWorst | gunnchos_device_os/connectivity_orchestrator.py:201-231 | infinities, not-a-number and anything beyond the worst count as the worst of their axis, anything beyond the best as the best |
| ConnectivityLaws.EthernetIsTaken | gunnchos_device_os/connectivity_orchestrator.py:74-84 | with default weights and hysteresis a good ethernet link (116.5) is taken over a wifi link of which only its presence is known (21.5) |
| ConnectivityLaws.ObservationCounts | gunnchos_device_os/connectivity_orchestrator.py:175-187 | an observation of a supported bearer alone decides its score from then on, and touches no other |
| ConnectivityLaws.FaultTouches | gunnchos_device_os/connectivity_orchestrator.py:142-170 | a fault leaves alone the scores of the bearers it does not name, and slowing down never raises one |
| ConnectivityLaws.FaultShows | gunnchos_device_os/connectivity_orchestrator.py:142-170 | what each fault makes of the bearer it names, axis by axis |
| ConnectivityLaws.DecisionNames | gunnchos_device_os/connectivity_orchestrator.py:329-345 | which name in a decision means which bearer, and that any other means offline |
| ConnectivityLaws.DecisionIsApplied | gunnchos_device_os/connectivity_orchestrator.py:346-359 | a decision ends on the named bearer with exactly one transition, unless it was active already |
| Identity.UnifiedIdentityService.constructor | gunnchos_device_os/unified_identity.py:102-111 | nothing known, empty audit trail |
| Identity.UnifiedIdentityService.CreateAccount | gunnchos_device_os/unified_identity.py:116-135 | adds an active account and its audit entry, or raises on a known id and changes nothing |
| Identity.UnifiedIdentityService.RegisterDevice | gunnchos_device_os/unified_identity.py:137-150 | adds the device and its audit entry, or raises on a known id and changes nothing |
| Identity.UnifiedIdentityService.FindBinding | gunnchos_device_os/unified_identity.py:168-174 | the search finds a binding in force of the pair exactly when there is one, and the only one when there is one only |
| Identity.UnifiedIdentityService.BindDevice | gunnchos_device_os/unified_identity.py:152-184 | returns exactly for an active account and a known device, and then a binding in force, which is new only if there was none |
| Identity.UnifiedIdentityService.UnbindDevice | gunnchos_device_os/unified_identity.py:186-196 | revokes the binding and, in the loop, exactly its sessions that are active |
| Identity.UnifiedIdentityService.IssueSession | gunnchos_device_os/unified_identity.py:198-245 | issues exactly for an active account with a binding in force, on the terms asked for; otherwise changes nothing |
| Identity.UnifiedIdentityService.ValidateSession | gunnchos_device_os/unified_identity.py:247-294 | the whole answer, account, device and roles included, with the first reason that applies; the only effect is to mark a session it finds too old |
| Identity.UnifiedIdentityService.RevokeSession | gunnchos_device_os/unified_identity.py:296-302 | revokes a known session whatever its state, or raises |
| IdentityRuns.RunKeepsInv | gunnchos_device_os/unified_identity.py:116-302 | over every run the dictionaries and the audit trail agree with the history of calls, and no pair has two bindings in force |
| IdentityRuns.ValidationReadsHistory | gunnchos_device_os/unified_identity.py:247-294 | after any run, the answer is valid for an account, device and roles if and only if the history shows the session issued for exactly these on terms the token, device and time fit, and neither it nor its binding taken back, whatever was validated before |
| IdentityRuns.ValidNamesABinding | gunnchos_device_os/unified_identity.py:282-294 | after any run, a valid answer names the account and device of a binding in force, and the device presented, if one was |
| IdentityRuns.AuditTellsHistory | gunnchos_device_os/unified_identity.py:113-302 | the audit trail of every reachable state lists exactly the sessions issued, the sessions revoked and the bindings unbound |
| IdentityRuns.AtMostOneBinding | gunnchos_device_os/unified_identity.py:167-174 | in every reachable state an account and a device have at most one binding in force |
| IdentityRuns.RejectionIsFinal | gunnchos_device_os/unified_identity.py:264-285 | a session that exists and once fails for a token and a device fails for them after any further calls, as long as time does not go back |
| IdentityRuns.ExpiryIsNotSticky | gunnchos_device_os/unified_identity.py:266-268 | the mark on a session found too old changes no later answer, reason included, at any time |
| IdentityRuns.ValidatingChangesNothing | gunnchos_device_os/unified_identity.py:247-294 | leaving all validate calls out of a run changes the validity of no session |
| IdentityLaws.IssueActs | gunnchos_device_os/unified_identity.py:198-245 | an issued session is valid for its token, device and time only, and stands for what it was issued for; other sessions answer as before |
| IdentityLaws.RevokeActs | gunnchos_device_os/unified_identity.py:296-302 | a revoked session answers so whatever is presented; others as before |
| IdentityLaws.UnbindActs | gunnchos_device_os/unified_identity.py:186-196 | the binding is revoked and no session on it is valid any more: an active one answers that it is revoked, one marked expired does not; others as before |
| IdentityLaws.ReasonIsFirst | gunnchos_device_os/unified_identity.py:247-285 | each reason is given exactly if it is the first that applies |
| IdentityLaws.OnlyOnce | gunnchos_device_os/unified_identity.py:116-184 | creating or registering what is known, and binding without an active account, a known device, or while a binding is in force, changes nothing |
| IdentityLaws.LogIn | gunnchos_device_os/unified_identity.py:116-294 | account, device, binding and session one after the other: the answer names the account, device and roles, until the binding is undone |
| IdentityLaws.SuspensionEndsNothing | gunnchos_device_os/unified_identity.py:247-294 | the status of the account plays no part in validation: suspending it ends no session |
| Closure.VisitShrinks | scripts/build_owner_four_game_packages.py:281-322 | termination: every iteration shrinks the names not yet met, or keeps them and shrinks the queue |
| Closure.NodeModules.constructor | scripts/build_owner_four_game_packages.py:275-280 | a destination tree as given |
| Closure.NodeModules.MaterializePnpmPackage | scripts/build_owner_four_game_packages.py:244-272 | the reported success and the packages then present, for each way out: already there, no store, no hit, directory without manifest, copied, failed copy |
| Closure.NodeModules.Enqueue | scripts/build_owner_four_game_packages.py:320-322 | appends exactly the dependencies not met before, in order |
| Closure.NodeModules.EnsureNodeRuntimeClosure | scripts/build_owner_four_game_packages.py:275-334 | the loop terminates with an empty queue at the fixpoint of the visit, and reports ok exactly when nothing is missing and the three critical packages, by name, are there |
| ClosureTheorems.WorklistIsReachability | scripts/build_owner_four_game_packages.py:281-322 | resolved and missing are duplicate-free, disjoint, and together exactly the names reachable from the seeds through dependencies of resolved packages |
| ClosureTheorems.NothingMissingMeansComplete | scripts/build_owner_four_game_packages.py:329-334 | with nothing missing every name on any dependency chain from a seed is present; a missing name was tried when it was not there and could not be had |
| ClosureTheorems.CloseKeeps | scripts/build_owner_four_game_packages.py:281-322 | tally, completeness and soundness of the walk hold when it ends |
| ClosureOrder.ResolvesBreadthFirst | scripts/build_owner_four_game_packages.py:281-322 | breadth first: in the list of the seeds followed by the dependencies of every resolved package in the order of resolving, the resolved and the missing names stand in the order of their first occurrence, and nothing else occurs |
| ClosureOrder.SecondRunChangesNothing | scripts/build_owner_four_game_packages.py:275-334 | once nothing is missing, running it again copies nothing and reports the same |
| ClosureTheorems.AbsenceIsFinalIff | scripts/build_owner_four_game_packages.py:281-322 | with directories as a file system keeps them: no walk from any tree and seeds reports a name missing that is there in the end, if and only if copies that stop leave no manifest of their own and no copy brings a name the store lacks or a bare directory |
| ClosureTheorems.FlawlessStoreIsTrusted | scripts/build_owner_four_game_packages.py:281-322 | the same for a given tree without bare directories when every copy succeeds, brings its own name and only names of the store |
| ClosureTheorems.HalfCopyIsReportedMissing | scripts/build_owner_four_game_packages.py:264-272 | in any world, a copy that stops after its manifest was written makes its name reported missing while present |
| ClosureTheorems.MissedThenBrought | scripts/build_owner_four_game_packages.py:291-307 | in any world, a name that cannot be had and that the next copy brings is reported missing and present |
| ClosureTheorems.MissingCanBePresent | scripts/build_owner_four_game_packages.py:264-307 | three concrete inputs, one for each way |
| FleetObject.FleetOpsSimulator.constructor | gunnchos_device_os/fleet_ops.py:93-106 | no devices, five percent, the given threshold |
| FleetObject.FleetOpsSimulator.Enroll | gunnchos_device_os/fleet_ops.py:124-157 | a fresh device record in the ring; enrolling again replaces it and keeps its place in the order |
| FleetObject.FleetOpsSimulator.Revoke | gunnchos_device_os/fleet_ops.py:159-163 | only the enrolment of the device changes; an unknown device is refused |
| FleetObject.FleetOpsSimulator.AssignRing | gunnchos_device_os/fleet_ops.py:166-172 | ring and canary flag of the device change together; an unknown device is refused |
| FleetObject.FleetOpsSimulator.SelectIds | gunnchos_device_os/fleet_ops.py:180-182 | exactly the devices that pass, in enrolment order |
| FleetObject.FleetOpsSimulator.PickCanaries | gunnchos_device_os/fleet_ops.py:181-185 | the canary ring if it has anyone, else the first enrolled ones up to the rounded percentage and at least one |
| FleetObject.FleetOpsSimulator.MarkCanaries | gunnchos_device_os/fleet_ops.py:186-190 | exactly the canaries get the target, and the ring and flag if they came from outside |
| FleetObject.FleetOpsSimulator.StartRollout | gunnchos_device_os/fleet_ops.py:174-206 | counters cleared, and exactly the chosen devices made canaries with the target |
| FleetObject.FleetOpsSimulator.ReportCanaryResult | gunnchos_device_os/fleet_ops.py:208-241 | counts the result on a canary, updates that device, and rolls everything back when the failures reach the threshold; the counters move by exactly one or not at all; anything else is refused |
| FleetObject.FleetOpsSimulator.PromoteRings | gunnchos_device_os/fleet_ops.py:243-262 | moves exactly the enrolled canary and early devices one ring on, onto their target, unless aborted or without a success |
| FleetObject.FleetOpsSimulator.RollbackRollout | gunnchos_device_os/fleet_ops.py:264-279 | the loop takes exactly the devices with a target or the canary flag back and lists them in order |
| Fleet.SweepAll | gunnchos_device_os/fleet_ops.py:251-271 | going through the devices in order changes each exactly once |
| FleetRuns.FlagsAlwaysMatch | gunnchos_device_os/fleet_ops.py:124-279 | over every run a device has the canary flag exactly when it is in the canary ring |
| FleetRuns.VersionChangesOnlyTo | gunnchos_device_os/fleet_ops.py:208-279 | a device not enrolled anew keeps its version, takes its own target, or falls back to a known-good one; only the start of a rollout gives a target, to an enrolled canary |
| FleetRuns.RollbackIsComplete | gunnchos_device_os/fleet_ops.py:243-279 | a rollback puts the affected devices on the known-good version, changes no other, and lasts: until the next rollout starts no calls give a target or bring the rolled-out version back |
| FleetRuns.RollbackLeavesNoTrace | gunnchos_device_os/fleet_ops.py:264-271 | over every run of guarded rollouts: after a rollback no device, wherever it has moved, runs a version that only a rollout put there |
| FleetRuns.StepTraceableIff | gunnchos_device_os/fleet_ops.py:124-279 | call by call, devices without a target run base versions if and only if the guard holds |
| FleetRuns.RollbacksCleanIff | gunnchos_device_os/fleet_ops.py:264-271 | no rollback after any guarded calls leaves a trace if and only if every device without a target runs a base version |
| FleetRuns.StartLeavesNoTraceIff | gunnchos_device_os/fleet_ops.py:174-190 | the guard is exact for the promise itself: after a rollout starts no rollback ever leaves a trace if and only if it named a version or none of its canaries ran a rolled-out one |
| FleetRuns.NamedIsGuarded | gunnchos_device_os/fleet_ops.py:174-190 | rollouts that name their version need no other guard |
| FleetRuns.EmptyVersionHidesADevice | gunnchos_device_os/fleet_ops.py:174-190 | a concrete run from an empty fleet in which an empty version name makes a rollback miss a device |
| FleetRuns.AbortStaysClean | gunnchos_device_os/fleet_ops.py:220-241 | over every run: while the failures are at the threshold no device has a target |
| FleetRuns.StartIsCleanIff | gunnchos_device_os/fleet_ops.py:174-206 | a rollout of a named version starts out clean if and only if the threshold is positive |
| FleetRuns.NothingAfterAbort | gunnchos_device_os/fleet_ops.py:208-246 | after an abort nothing is promoted until the next rollout starts, whatever the threshold, and versions only become known-good ones, even by a success reported late |
| FleetRuns.RolloutArrives | gunnchos_device_os/fleet_ops.py:174-262 | a chosen canary that reports success and is promoted twice runs the rolled-out version in the broad ring, whatever the rest of the fleet is |
| FleetRuns.RoundIsNearest | gunnchos_device_os/fleet_ops.py:184 | rounding gives a nearest integer, the even one of two |
| FleetRuns.CanariesAreAsAsked | gunnchos_device_os/fleet_ops.py:180-190 | the canaries are the enrolled devices of the canary ring, in order, or else a first part of the enrolled ones, as many as asked |
| FleetRuns.CountIsAsAsked | gunnchos_device_os/fleet_ops.py:184 | that many: within half a device of the percentage of the enrolled, one for a share of up to one device and all from one hundred per cent on |
| FleetLaws.AbortedIffFailuresReported | gunnchos_device_os/fleet_ops.py:174-246 | from any start, over any calls: aborted if and only if the accepted failing reports since have reached the threshold; promotion possible if and only if they have not and an accepted success was reported |
| FleetLaws.FailureIsFelt | gunnchos_device_os/fleet_ops.py:208-241 | an accepted failure counts one; if it reaches the threshold every canary and every device with a target is on the known-good version without a target, otherwise only the health of the reporter changes |
| FleetLaws.SuccessIsFelt | gunnchos_device_os/fleet_ops.py:208-241 | an accepted success counts one and puts the reporter, and nobody else, on its target |
| FleetLaws.OthersAreRefused | gunnchos_device_os/fleet_ops.py:210-215 | a report from any other device changes nothing |
| FleetLaws.PromotionMoves | gunnchos_device_os/fleet_ops.py:243-262 | which devices move to which ring and version, that all others stay exactly as they are, and that nothing moves once aborted or before a success |
| FleetLaws.NoPromotionWithoutSuccess | gunnchos_device_os/fleet_ops.py:243-246 | from any start, over any calls without an accepted success, promotion changes nothing |
| FleetLaws.StartMarks | gunnchos_device_os/fleet_ops.py:174-206 | a start clears the counts and makes exactly the chosen devices canaries on the target; versions, health and everyone else stay |
| FleetLaws.EnrollStartsFresh | gunnchos_device_os/fleet_ops.py:124-157 | enrolling gives a healthy device on the factory version without a target, once in the order; others stay |
| FleetLaws.RevokedIsOut | gunnchos_device_os/fleet_ops.py:159-279 | over every run, a revoked device stays revoked and no rollout gives it a target until it is enrolled anew |
| AttestationObjects.MeasurableBootEvidence.constructor | gunnchos_device_os/attestation.py:80-92 | fields as given, no bank and no signature yet |
| AttestationObjects.MeasurableBootEvidence.ByStage | gunnchos_device_os/attestation.py:103-108 | the dictionary keeps the last measurement of a stage |
| AttestationObjects.MeasurableBootEvidence.ComputePcrBank | gunnchos_device_os/attestation.py:94-111 | the loop yields the five registers of the chain over the effective digests |
| AttestationObjects.MeasurableBootEvidence.SignDev | gunnchos_device_os/attestation.py:125-132 | signs only in the development realm, over a body whose bank is filled in only if it was empty |
| AttestationObjects.BuildDevEvidence | gunnchos_device_os/attestation.py:253-277 | the signed document for all stage digests, with each identifier in its own field, or none if a stage name is unknown |
| AttestationObjects.AttestationVerifier.constructor | gunnchos_device_os/attestation.py:153-158 | expectations and realm policy as given |
| AttestationObjects.AttestationVerifier.MissingFields | gunnchos_device_os/attestation.py:162-164 | exactly one kind of error for each absent required field; none exactly when all nine are there |
| AttestationObjects.AttestationVerifier.EntryErrors | gunnchos_device_os/attestation.py:173-181 | for each position exactly the errors that entry deserves |
| AttestationObjects.AttestationVerifier.ValidateSchema | gunnchos_device_os/attestation.py:160-182 | no error exactly for a well-formed document; field, version and realm errors exactly when those are wrong |
| AttestationObjects.AttestationVerifier.Verify | gunnchos_device_os/attestation.py:184-250 | valid exactly when every property of an accepted document holds, each error reported exactly when it applies; raises exactly on a well-formed, admissible document whose signature is not ASCII text or with a stage that is none |
| AttestationObjects.AttestationVerifier.Judge | gunnchos_device_os/attestation.py:205-250 | past schema and realm: raises exactly if the signature is not ASCII text or a stage is none; otherwise each error is reported exactly when the document deserves it |
| AttestationObjects.AttestationVerifier.AcceptsIff | gunnchos_device_os/attestation.py:205-250 | a document deserves no error if and only if it is an accepted one |
| AttestationObjects.AttestationVerifier.Mismatches | gunnchos_device_os/attestation.py:216-219 | reports exactly the stages some entry of which contradicts its expected digest |
| AttestationObjects.AttestationVerifier.Parse | gunnchos_device_os/attestation.py:222-229 | reads back exactly the measurements, or nothing if a stage is unknown or not text |
| AttestationTheorems.FindCollision | gunnchos_device_os/attestation.py:105-110 | chains of equal length with equal ends and different digests yield two different hashed inputs with the same hash |
| AttestationTheorems.RegisterAgreesIff | gunnchos_device_os/attestation.py:94-111 | without a collision on the inputs used, two banks agree at a register if and only if the effective digests of all stages up to it agree |
| AttestationTheorems.BuiltIsAcceptedIff | gunnchos_device_os/attestation.py:184-277 | round trip: a built document is accepted if and only if it has a measurement, full digests, a sufficient security version, and contradicts no expected digest |
| AttestationTheorems.EntriesRoundTrip | gunnchos_device_os/attestation.py:57-68 | measurements with full digests survive being written to a document and read back |
| AttestationLaws.BuiltCarriesArguments | gunnchos_device_os/attestation.py:253-277 | every field of a built document is the argument it stands for, every measurement the stage and digest given, and what is signed is what is written |
| AttestationLaws.RegistersAreChained | gunnchos_device_os/attestation.py:94-111 | the five registers spelled out: each hashed from the one before and the digest of its stage, the first from zeros |
| AttestationLaws.LastMeasuredCounts | gunnchos_device_os/attestation.py:103-108 | the digest that counts is the one measured last for the stage |
| AttestationLaws.UnmeasuredCounts | gunnchos_device_os/attestation.py:107-108 | a stage that was not measured counts as 64 letters f |
| CanonicalJson.EscapeCharUnique | gunnchos_device_os/attestation.py:71-72 | no escape of a character, surrogate pairs included, is the beginning of another |
| CanonicalJson.QuotedUnique | gunnchos_device_os/attestation.py:71-72 | the text of a string tells the string and where it ends |
| CanonicalJson.NumberUnique | gunnchos_device_os/attestation.py:71-72 | the text of an integer tells the integer |
| AttestationLaws.PlainIsVerbatim | gunnchos_device_os/attestation.py:71-72 | printable text without quotes and backslashes stands for itself between quotes |
| AttestationLaws.EscapesAre | gunnchos_device_os/attestation.py:71-72 | every other character: the short escapes, and otherwise the hexadecimal digits, read back as a number, of its code or its two surrogates |
| AttestationLaws.DigitsReadBack | gunnchos_device_os/attestation.py:71-72 | the decimal digits of a number, read back, are the number, without leading zeros |
| CanonicalJson.ObjectTextUnique | gunnchos_device_os/attestation.py:71-72 | the text of a dictionary of strings, sorted by key, tells the dictionary and where it ends |
| AttestationSigning.EntriesTextUnique | gunnchos_device_os/attestation.py:71-72 | the text of the measurements list tells the list and where it ends |
| AttestationSigning.CanonicalUnique | gunnchos_device_os/attestation.py:71-77 | the canonical text that is signed tells the whole body, whatever quotes, braces or escapes its fields hold |
| AttestationSigning.SignatureDeterminesDocument | gunnchos_device_os/attestation.py:71-77 | two accepted documents with the same signature are the same document, or two different texts with the same keyed digest are exhibited |
| AttestationTheorems.LastRegisterStandsForBoot | gunnchos_device_os/attestation.py:94-111 | accepted documents with the same last register agree on the effective digest of every stage, unless the hash collides |

## Left out

- Wall clocks, random identifiers and tokens are inputs; the model asks only that new identifiers are new.
- SHA-256 and the keyed digest are arbitrary functions. Results that need injectivity either exhibit a collision or assume
  there is none on the inputs used; nothing assumes a hash that is injective everywhere.
- Floating-point rounding: scores and percentages are reals, with infinities and not-a-number as separate cases. A sink
  whose score is not a number (a preference that is none, or an infinite one with weight zero) is excluded (`SinkUp`,
  `SinkObserved`), because the order in which Python's sort leaves such a score depends on the version of the interpreter.
- Aliasing of records, slots, sessions and metrics: these are values held by the objects, so sharing one object between two
  holders, for instance a metrics object the caller changes after an update, is not modelled.
- JSON values are text or null; defaults for absent fields of a remote record, and remote records of the wrong type, are not modelled.
- Listeners, `to_dict`, `status` and `snapshot` payloads, claim strings, and the further fields of returned dictionaries.
- Orchestrators, slot tables and services constructed with other contents than the default ones, and bearer profiles built from YAML.
- `handoff_cost_energy`: differences of observed numbers.
- Display names, e-mail hashes, labels and trust levels of accounts, devices and bindings, and further details of audit
  entries. A change of account status, which callers make by assigning the field, is a step of the runs.
- Identity.UnifiedIdentityService.FindBinding: does not say which binding is found if several are in force, because the order
  of that dictionary is not modelled; no reachable state has several.
- Closure.NodeModules.MaterializePnpmPackage: what copying does to the tree, siblings and bare directories included, is an
  arbitrary function that keeps manifests; the directory walk of `_materialize_linked_package_deps` and the choice among
  several hits are inside it. Dependency lists do not change. An I/O error while the parent directory is made counts as
  one of the copy. A scoped name without a slash raises in the code and is not modelled.
- Cohorts, inventory, events, diagnostics, telemetry and service-level stubs of the fleet.
- UpdateRecovery.UpdateRecoverySuite.Prepare: factors out the calls the scenarios have in common; digests of the packages are inputs of length 64.
- OtaObject.OtaStateMachine.RunHappyPath: an exception half-way is the outcome of the first call that raises.
- AttestationObjects.AttestationVerifier.Verify: fields of other types than the schema asks for are modelled only for the
  signature and inside the measurements list; further keys of an entry, which are signed too, are not modelled.
- Order and text of error messages, except where a contract names them.
