# Verification of the usage, policy and maintenance protocols

This project models the protocols at the core of Bifurcation, a panel with daemons that
run an embedded proxy, and proves what they promise. It verifies with
`dafny verify dfyconfig.toml`.

- **Metering.** A daemon turns monotone per-runtime counters into deltas (`Outbox`), slices
  them into immutable numbered batches (`Batching`) and replays the head of its bounded
  outbox (`Sender`); the panel accepts exactly the next batch, splits every delta over
  minutes (`Splitting`, `Calendar`), and rolls them up into day and month ledgers
  (`Ledger`, `LedgerProofs`, `Headroom`, `Receiver`, `Query`, `Periods`). `Pipeline` joins both ends
  with a network that loses, repeats and delays messages; `FinalSamples` says in what order
  samples reach the store, `Metering` joins the two, and `Accounting` adds every runtime's
  traffic tracker.
- **Policy floor.** `Authorization` merges users into a configuration, `Adapter` applies,
  rolls back and recovers configurations over a write-ahead row, and `PolicyRevision` is
  the panel's side: revisions, previews, publications and reconciliation. `Quota` joins it
  to the ledger.
- **Drain.** `Tracker` is the protocol by which a closing engine yields a complete final
  sample.
- **Subscriptions.** `Subscription` compiles a template; its cycle check and memoised
  search are proved against plain paths in `Graph`.
- **Maintenance.** `Upgrade` and `Uninstall` run over the journal of `Tasks`;
  `PlanRegister` is the plan file over successive upgrades, `Meter` the accounting of a
  host while daemons come and go.

Entities that the code updates in place are classes whose methods are proved against
functions of the old state; what those functions guarantee are lemmas. Concurrent
protocols are step relations over the lock regions, transactions and messages, and their
theorems speak of every run. In `Upgrade` and `Uninstall` a nondeterministic `if` stands
for a crash, an outcome of the operating system, or the other process acting in between.

SQLite transactions are atomic, a payload stands for its SHA-256 digest and its encoding
(its size is an abstract function), an authorization or configuration text is a value in
one of its spellings, and clocks, the network, `systemctl`, engine start and generated
secrets are inputs or nondeterministic outcomes.

A history of `Meter` is sound while every sample is a step of `Accounting`, clocks run
forwards, other requests come from other machines, and a daemon reports a clean shutdown
only with nothing left to close or to record.

Three findings are proved as exact conditions: month buckets contain their instants
exactly outside the years 0 to 99 (`Calendar.MonthTiling`); the subscription compiler
throws a TypeError on a checked draft exactly where an entry that is no group has a
dangling `outbounds` array and no cycle is found first (`Subscription.RenderSubscription`
and `ClosedUnlessLoose`, with the draft of `LooseMembersEscape` and `LooseWithClients`); and an upgrade's plan
outlives every continuation exactly when no earlier helper still has to save its pending
result, which the daemon's guards do not wait for (`PlanRegister.SurvivesExactly`, with the
run of `Overtaken`).

## Model

| member | source | states |
|---|---|---|
| Accounting.ByteForByte | services/daemon/internal/panelclient/usage.go:33-127 | From the wire to the ledger: in every state of every run of trackers, adapter, collector, sender and panel, and for every user and direction, month-ledger bytes plus uncommitted outbox bytes never exceed what the tracked operations of all runtimes moved, and equal it once the final samples of the user's runtimes have been recorded. |
| Accounting.FinalIsExact | services/daemon/internal/adapters/singbox/adapter.go:198-241 | A recorded final sample holds exactly the bytes the tracked operations of its runtime moved, whatever is sampled or sent afterwards. |
| Accounting.StepInv | services/daemon/internal/adapters/singbox/adapter.go:210-228 | Every tracker step, lock region and protocol event keeps readings at or behind the bytes moved and recorded final ones exact. |
| Metering.EndToEnd | services/daemon/internal/panelclient/usage.go:33-127 | Conservation over whole runs, from the samples the adapter and the collector take to the month ledger: in every reachable state and for every user and direction, month-ledger bytes plus the bytes of outbox batches beyond the panel's committed number equal the last recorded counters summed over all runtimes. |
| Metering.StepInv | services/daemon/internal/panelclient/usage.go:41-75 | Every lock region, message and transaction of the joined system keeps the invariant. |
| Metering.GroupedIsManaged | services/daemon/internal/adapters/singbox/adapter.go:198-241 | Samples that arrive runtime by runtime never name a runtime a user's cursor has left, which is all the protocol assumes about runtimes. |
| FinalSamples.SamplesInOrder | services/daemon/internal/adapters/singbox/adapter.go:171-272 | Over any interleaving of detach, drain, final sample, retry, baseline (skipped without users), boot, collector and crash, and although a recorded sample may look refused to its caller: accepted samples come runtime by runtime, at most one final sample waits, and no drained runtime's final sample is forgotten while the process lives. |
| FinalSamples.FinalsAreOwed | services/daemon/internal/adapters/singbox/adapter.go:198-241 | A final sample is recorded only of a runtime that was drained and whose sample is still owed. |
| FinalSamples.SettledBeforeLaunch | services/daemon/internal/adapters/singbox/adapter.go:171-189 | A new runtime offers its zero baseline only after the final samples of all runtimes drained in this process have been accepted. |
| FinalSamples.OrderKept | services/daemon/internal/adapters/singbox/adapter.go:441-465 | Every event keeps the order of samples, also when a retry and the collector hold the same pending sample. |
| Pipeline.Conservation | services/daemon/internal/panelclient/usage.go:76-127 | The same balance for the protocol alone, under lost, repeated and delayed requests, lost replies, other machines, clean-ups and crashes between transactions. |
| Pipeline.InvBalances | apps/web/src/server/usage/store.ts:94-144 | The invariant of one state balances the books of that state. |
| Pipeline.NoSpuriousRecovery | services/daemon/internal/panelclient/usage.go:89-121 | While the panel keeps its stream row: daemon committed <= panel committed < next number always, no reply asks for recovery, every acknowledgement is in range, no payload conflict arises, and the outbox stays intact. |
| Pipeline.CoherentAlways | apps/web/src/server/usage/store.ts:109-138 | The ledger grains agree in every state of every run. |
| Pipeline.PassingRefusals | apps/web/src/server/usage/store.ts:88-124 | In every state of every run, whatever the panel's clock and settings, a request in flight is refused only because the machine is not installed, a user is unknown, the interval is ahead of the clock, a bucket is full, or the quota refresh fails; the structural limits never apply. |
| Pipeline.RequestAdmitted | apps/web/src/server/usage/store.ts:88-145 | With the machine installed, known users, clocks in step, room in the buckets and a working refresh, a request in flight is accepted. |
| Pipeline.StepInv | services/daemon/internal/panelclient/usage.go:76-127 | Every event keeps the protocol invariant. |
| Pipeline.DeliverOutcome | apps/web/src/server/usage/store.ts:95-102 | A request with an issued batch commits it exactly if it is the next one and otherwise changes nothing; the reply never lags behind the batch. |
| Pipeline.AnswerOutcome | services/daemon/internal/panelclient/usage.go:110-116 | The reply to the outstanding call acknowledges exactly the head of the outbox. |
| Sender.FlushUsage | services/daemon/internal/panelclient/usage.go:76-127 | The sending loop refines the protocol: it ends in a state the invariant allows, every answered call the panel is ready for acknowledges one batch, a backlog is reported only after 128 of them, a pending report only for a lost call or an unready panel, an error exactly for rejected credentials, recovery and failed acknowledgements never; without an issue the month ledger holds everything recorded. |
| Sender.ReportHead | services/daemon/internal/panelclient/usage.go:90-121 | One call for the head: it is acknowledged, or the store is unchanged because the call was lost, its credentials were rejected, or the panel was not ready. |
| Sender.Receive | services/daemon/internal/panelclient/usage.go:110-121 | A reply to the outstanding call always acknowledges exactly one batch. |
| Sender.AllSettled | services/daemon/internal/panelclient/usage.go:90-99 | An empty outbox means that the panel's month ledger equals the recorded counters. |
| Outbox.UsageStore.RecordSample | services/daemon/internal/state/usage.go:44-160 | One transaction: the new store is the specified one, and on any refusal (regression, overflow, full outbox) cursors and rows are unchanged. |
| Outbox.UsageStore.Collect | services/daemon/internal/state/usage.go:59-124 | The sampling loop computes the specified cursors and deltas, or refuses the whole sample. |
| Outbox.UsageStore.Append | services/daemon/internal/state/usage.go:125-150 | The numbering loop appends the specified rows within 1 MiB each and 64 MiB in all, or refuses. |
| Outbox.UsageStore.NextBatch | services/daemon/internal/state/usage.go:199-208 | Returns the stored batch with the lowest number, or nothing exactly when the outbox is empty. |
| Outbox.UsageStore.AcknowledgeUsage | services/daemon/internal/state/usage.go:209-239 | Accepts exactly the numbers from the committed one up to below the next; removes the rows up to it. |
| Outbox.UsageStore.RequireUsageRecovery | services/daemon/internal/state/usage.go:251-253 | Only the stream's recovery issue changes. |
| Outbox.RecordedIntegrity | services/daemon/internal/state/usage.go:125-155 | Outbox rows stay exactly the numbers strictly between committed and next, pending bytes their total size within 64 MiB; stored rows never change. |
| Outbox.RecordedAppends | services/daemon/internal/state/usage.go:125-155 | The added rows are the batches of the sample's deltas under the next numbers. |
| Outbox.AcknowledgedIntegrity | services/daemon/internal/state/usage.go:221-238 | Acknowledging keeps that invariant, and the clamp at zero never takes effect. |
| Outbox.AccountTelescopes | services/daemon/internal/state/usage.go:74-118 | In a managed runtime a counter emits exactly the progress of its user's reading, from zero in a new runtime. |
| Outbox.SampleEmits | services/daemon/internal/state/usage.go:94-118 | Every emitted delta has start < end and upload + download within int64. |
| Outbox.SampleTelescopes | services/daemon/internal/state/usage.go:59-124 | A sample emits for each user exactly the progress of that user's cursor; other cursors keep their value. |
| Outbox.ReplayIsIdle | services/daemon/internal/state/usage.go:85-103 | Recording an accepted sample again, final or not, changes nothing. |
| Outbox.LateSampleIsIdle | services/daemon/internal/state/usage.go:85-90 | A periodic sample that arrives after the final one of its runtime is accepted and emits nothing. |
| Outbox.RecordedSendable | services/daemon/internal/state/usage.go:129-155 | Every row an accepted sample adds is numbered within int64, at most 1 MiB, of its runtime, and holds 1 to 256 daily slices within the budgets. |
| Outbox.CursorOutcome | services/daemon/internal/state/usage.go:62-124 | What an accepted sample does to a user's cursor depends on that user's counter alone: it is kept, or becomes the counter. |
| Outbox.AcceptedCovers | services/daemon/internal/state/usage.go:62-72 | Accepted samples are of one runtime, well-formed, one counter per user, and leave cursors that cover them. |
| Batching.BatchDeltas | services/daemon/internal/state/usage.go:170-198 | The loop produces the specified batches for deltas with start < end. |
| Batching.SlicesTile | services/daemon/internal/state/usage.go:181-194 | The slices of a delta are consecutive, at most a day long, non-negative, and cover its interval. |
| Batching.SlicesTelescope | services/daemon/internal/state/usage.go:161-191 | Scaled differences telescope: slicing keeps every byte. |
| Batching.BatchesExact | services/daemon/internal/state/usage.go:170-198 | Batches carry exactly the bytes of the deltas per user and direction, each with 1 to 256 daily slices within cost 8000. |
| Receiver.MinutesBounded | apps/web/src/server/usage/store.ts:118-123 | A delta meets at most its length in minutes plus two minute buckets. |
| Receiver.CoarseBounded | apps/web/src/server/usage/store.ts:120-123 | A daily slice meets at most two day and two month buckets. |
| Receiver.DeltaCost | apps/web/src/server/usage/store.ts:109-138 | Posting a daily slice projects at most the daemon's cost; it is refused exactly for an unknown user, an interval ahead of the clock, or a full bucket. |
| Receiver.DaemonBatchAccepted | apps/web/src/server/usage/store.ts:103-138 | A well-formed batch in sequence is refused only for an unknown user, an interval ahead of the clock, a full bucket or a failed refresh, and accepted where none of these is the case. |
| Headroom.DeltasFit | apps/web/src/server/usage/store.ts:130-132 | A batch whose bytes fit on top of every bucket of its machine never overflows one. |
| Headroom.GrainTotal | apps/web/src/server/usage/store.ts:118-131 | The parts a grain writes for a delta are non-negative and carry at most its bytes. |
| Ledger.UsageLedger.ReportUsage | apps/web/src/server/usage/store.ts:88-145 | The method computes the specified panel and reply: duplicates, gaps, conflicts, refusals and the committed batch. |
| Ledger.ProjectDelta | apps/web/src/server/usage/store.ts:109-138 | One delta posted over minute, day and month as specified, or refused. |
| Ledger.RollupMinutes | apps/web/src/server/usage/store.ts:21-29 | The Map-based roll-up equals the specified grouping in order of first occurrence. |
| Ledger.UsageLedger.CleanMinutes | apps/web/src/server/usage/store.ts:204-209 | Deletes at most a thousand minutes, oldest first, only those past retention. |
| Ledger.OldestThousand | apps/web/src/server/usage/store.ts:205-208 | The thousand keys with the earliest starts, or all there are. |
| Ledger.PairedRollUps | apps/web/src/server/usage/store.ts:118-131 | Rolled-up upload and download have the same buckets at the same indices. |
| Ledger.PostingErrors | apps/web/src/server/usage/store.ts:99-124 | Posting can be refused, but never as a payload conflict. |
| LedgerProofs.PostDeltaAdds | apps/web/src/server/usage/store.ts:120-136 | Posting a delta adds to every family of buckets exactly the bytes attributed to it. |
| LedgerProofs.RollUpPreserves | apps/web/src/server/usage/store.ts:21-29 | Rolling up preserves bytes: rolled buckets hold what the minutes behind them hold. |
| LedgerProofs.MonthMatchesDays | apps/web/src/server/usage/store.ts:116-122 | A month bucket and the days inside it receive the same bytes of a delta. |
| LedgerProofs.DayMatchesMinutes | apps/web/src/server/usage/store.ts:116-127 | A day bucket receives at least the bytes of its stored minutes, and exactly those when the day begins within the 30-day window. |
| LedgerProofs.ReportedCoherent | apps/web/src/server/usage/store.ts:88-145 | Any request, accepted, duplicate or refused, keeps each month equal to its days and each day at least its minutes, equal while the day is within retention. |
| LedgerProofs.CleanedCoherent | apps/web/src/server/usage/store.ts:204-209 | Deleting expired minutes keeps the grains coherent and changes no day or month. |
| LedgerProofs.ReportedCharges | apps/web/src/server/usage/store.ts:95-143 | A request that advances the stream charges exactly its batch's bytes to the month ledger of its machine; every other request changes nothing. |
| Splitting.SplitBytes | apps/web/src/server/usage/time.ts:22-34 | The two loops compute the specified parts. |
| Splitting.FloorParts | apps/web/src/server/usage/time.ts:25-29 | The first loop yields the floor shares of the consecutive buckets and their total. |
| Splitting.HandOut | apps/web/src/server/usage/time.ts:31-32 | The second loop adds one byte to as many leading buckets as there are bytes left over. |
| Splitting.SplitExact | apps/web/src/server/usage/time.ts:22-34 | Parts sum to the bytes, each the floor of its proportional share or one more. |
| Splitting.SplitTiles | apps/web/src/server/usage/time.ts:25-28 | Buckets are consecutive, each meets the interval, and together they cover it. |
| Splitting.LeftoverSmall | apps/web/src/server/usage/time.ts:31 | The remainder is at least zero and strictly less than the number of buckets. |
| Splitting.SplitsPair | apps/web/src/server/usage/store.ts:118-119 | Two splits of one interval use the same bucket starts. |
| Calendar.MonthTiling | apps/web/src/server/usage/time.ts:4-7 | monthStart(t) <= t < nextBucket holds if and only if the local year is not 0 to 99, which Date.UTC reads as 1900 to 1999 (section 21.4.3.4 of ECMA-262). |
| Calendar.Tiling | apps/web/src/server/usage/time.ts:12-21 | On the minute and day grains for every instant, on the month grain outside the years 0 to 99: the bucket contains its instant, and its start is a fixed point in the same year. |
| Calendar.Successor | apps/web/src/server/usage/time.ts:17-21 | For the same instants the next bucket begins later, and at a bucket start if and only if it is not January of the year 0. |
| Calendar.BucketUnique | apps/web/src/server/usage/time.ts:12-21 | For the same starts no other bucket contains the instant. |
| Calendar.Refines | apps/web/src/server/usage/time.ts:12-16 | Minutes refine days and days refine months at UTC+8. |
| Periods.PeriodsAligned | apps/web/src/features/usage/range.ts:15-33 | Every range the client builds, for any year from 0 and any month, is left as it is by the server's alignment. |
| Periods.MonthRecognised | apps/web/src/features/usage/range.ts:27-32 | The range of a month is recognised by the server as a natural month and is that month, except that a year from 0 to 99 selects the twentieth century. |
| Periods.CurrentMonthAgrees | apps/web/src/features/usage/range.ts:11-13 | The client's current month contains the present instant and starts where the server's month does. |
| Periods.PreviousMonthAdjoins | apps/web/src/server/usage/store.ts:182-186 | Before a natural month the server compares with the whole previous month, which ends where the month starts. |
| Query.Totals | apps/web/src/server/usage/store.ts:158-171 | Totals equal the sums over rows, points and groups; each bucket start and each user-machine pair is listed once, with the bytes and flags of its rows. |
| Query.ChangeRounded | apps/web/src/server/usage/store.ts:189-194 | changePercent is the nearest hundredth of a percent with ties away from zero for both signs, and no other value is. |
| Authorization.ParseAuthorization | services/daemon/internal/adapters/singbox/policy.go:23-46 | Accepts exactly version 1, a positive revision, and complete users with distinct identifiers. |
| Authorization.MergeAuthorization | services/daemon/internal/adapters/singbox/policy.go:67-114 | The loop computes the specified merge, or fails exactly when the authorization or the configuration does. |
| Authorization.LastMergeWins | services/daemon/internal/adapters/singbox/policy.go:67-114 | Merging over an earlier merge is merging the original; merging is idempotent. |
| Authorization.MergeIsLocal | services/daemon/internal/adapters/singbox/policy.go:66-114 | Only the user lists of the two managed inbounds change. |
| Authorization.MergeableAlike | services/daemon/internal/adapters/singbox/policy.go:76-112 | Whether a configuration can be merged does not depend on the users. |
| Authorization.MergedServes | services/daemon/internal/adapters/singbox/policy.go:88-112 | Both managed inbounds list exactly the authorized users, each with the password of its protocol. |
| Adapter.CoreStore.PersistPolicy | services/daemon/internal/state/core.go:33-55 | Refuses exactly a lower revision or another authorization for the same one; otherwise raises the floor. |
| Adapter.CoreStore.PrepareCore | services/daemon/internal/state/core.go:56-78 | Refuses exactly a policy below the floor or a foreign preparation; otherwise records the preparation. |
| Adapter.CoreStore.CommitCore | services/daemon/internal/state/core.go:79-81 | The applied fields are replaced and the preparation is cleared. |
| Adapter.CoreStore.AbortCore | services/daemon/internal/state/core.go:82-84 | Only the preparation is cleared. |
| Adapter.Adapter.Apply | services/daemon/internal/adapters/singbox/adapter.go:282-364 | On every path, crashes after each store write included: the floor never falls, it becomes the accepted authorization's revision, a running engine is the applied configuration at the floor; an applicable configuration is applied, a rejected one leaves the engine, a rolled-back one leaves the previous configuration with the latest users. |
| Adapter.Adapter.Replace | services/daemon/internal/adapters/singbox/adapter.go:344-364 | Between preparation and commit: the candidate runs and is applied, or the previous configuration comes back with the latest users, or no engine is left. |
| Adapter.Adapter.Problem | services/daemon/internal/adapters/singbox/adapter.go:306-332 | A configuration passes if and only if it belongs to the floor, has its digest, and already carries exactly the authorized users. |
| Adapter.Adapter.Fail | services/daemon/internal/adapters/singbox/adapter.go:299-305 | An engine that served an older policy is replaced, any other stays; it rolls back exactly when the previous configuration is older and can be restored. |
| Adapter.Adapter.Rollback | services/daemon/internal/adapters/singbox/adapter.go:365-405 | Restores the previous configuration merged with the latest users if and only if it merges, builds and starts, and otherwise leaves no engine. |
| Adapter.Adapter.Recover | services/daemon/internal/adapters/singbox/adapter.go:406-439 | The engine comes up if and only if the applied configuration, merged unless it is settled at the floor, builds and starts; a settled row is not written. |
| Adapter.Adapter.Close | services/daemon/internal/adapters/singbox/adapter.go:259-272 | No engine is left and the row is unchanged. |
| Adapter.Adapter.Build | services/daemon/internal/adapters/singbox/adapter.go:113-170 | A candidate has the authorized users, and configurations that expose management interfaces are refused. |
| Adapter.RunningServes | services/daemon/internal/adapters/singbox/adapter.go:316-332 | In every safe state a running engine serves, on both protocols, exactly the users of the stored authorization at the floor, and its traffic is counted for exactly those users. |
| Adapter.ShortcutSound | services/daemon/internal/adapters/singbox/adapter.go:419-425 | Where the applied policy is the floor, merging changes nothing, so recovery may skip it. |
| Adapter.Drive | services/daemon/internal/adapters/singbox/adapter.go:282-439 | Any sequence of applications, shutdowns, crashes and restarts keeps safety, and the floor never decreases. |
| Tracker.DrainComplete | services/daemon/internal/adapters/singbox/tracker.go:99-118 | Once Drain has returned, in all later states no counter changes, and the counters are exactly the bytes tracked operations ever moved. |
| Tracker.SettledOnce | services/daemon/internal/adapters/singbox/tracker.go:129-163 | In every reachable state the wait group, the active count and the number of closers agree; a connection's callback has run or is due once, exactly when it is closed and idle, and a registered connection is a closer exactly until it has run. |
| Tracker.QuietDrains | services/daemon/internal/adapters/singbox/tracker.go:139-163 | No wake-up is lost: with all connections closed and idle and no callback due, a waiting drain can return. |
| Tracker.StepInv | services/daemon/internal/adapters/singbox/tracker.go:74-163 | Every lock region keeps the invariant. |
| Tracker.DrainedIdle | services/daemon/internal/adapters/singbox/tracker.go:189-220 | After a drain no operation is in flight and every registered connection refuses new ones. |
| Tracker.CountersBehind | services/daemon/internal/adapters/singbox/tracker.go:189-220 | In every reachable state the counters lie between zero and the bytes moved. |
| Tracker.Connection.Begin | services/daemon/internal/adapters/singbox/tracker.go:129-137 | Refused exactly when closing has begun; otherwise one more operation is in flight. |
| Tracker.Connection.End | services/daemon/internal/adapters/singbox/tracker.go:139-147 | One operation less, and settling is due exactly when closed and idle. |
| Tracker.Connection.FinishClose | services/daemon/internal/adapters/singbox/tracker.go:155-163 | Closed, and settling is due exactly when idle. |
| Tracker.Connection.Settle | services/daemon/internal/adapters/singbox/tracker.go:144-146 | The callback runs the first time only. |
| Tracker.Tracking.Routed | services/daemon/internal/adapters/singbox/tracker.go:165-176 | A routed connection is registered unless the tracker drains, and takes the protocol's step. |
| Tracker.Tracking.BeginIo | services/daemon/internal/adapters/singbox/tracker.go:189-193 | The start of an operation takes the protocol's step. |
| Tracker.Tracking.EndIo | services/daemon/internal/adapters/singbox/tracker.go:139-147 | The end of an operation takes the protocol's step. |
| Tracker.Tracking.EndClose | services/daemon/internal/adapters/singbox/tracker.go:213-220 | The end of a close takes the protocol's step. |
| Tracker.Tracking.RunOnce | services/daemon/internal/adapters/singbox/tracker.go:144-146 | The once and the release take the protocol's step. |
| Tracker.Tracking.Transfer | services/daemon/internal/adapters/singbox/tracker.go:189-211 | An uninterrupted read or write is refused without effect once closing has begun, and otherwise adds all it moved to its user's counters. |
| Tracker.Tracking.BeginDrain | services/daemon/internal/adapters/singbox/tracker.go:99-106 | The fence takes the protocol's step and returns the present closers. |
| Tracker.Tracking.EndWait | services/daemon/internal/adapters/singbox/tracker.go:110-117 | The drain returns only with an empty wait group, and otherwise when its context ends. |
| Tracker.TrafficTracker.Register | services/daemon/internal/adapters/singbox/tracker.go:74-84 | Refused exactly while draining; otherwise closers, wait group and active count grow together. |
| Tracker.TrafficTracker.Release | services/daemon/internal/adapters/singbox/tracker.go:86-94 | A closer is released once; a second release changes nothing. |
| Tracker.TrafficTracker.Fence | services/daemon/internal/adapters/singbox/tracker.go:99-106 | Registration is fenced off and all present closers are returned. |
| Subscription.RenderSubscription | apps/web/src/server/subscription/template.ts:67-164 | Compiles exactly the acceptable drafts into the specified document; on a closed graph it reports a cycle if and only if there is one, on an open graph without a cycle it throws, and on an open graph with one it throws or reports it; the filter error comes exactly when a group reaches a generated outbound outside its filter. |
| Subscription.Exactness | apps/web/src/server/subscription/template.ts:98-162 | In a compiled subscription every bound group reaches exactly the generated outbounds its filter selects. |
| Subscription.ClosedUnlessLoose | apps/web/src/server/subscription/template.ts:119-147 | After the reference checks the graph is closed, so no TypeError is thrown, if and only if every outbounds array of an entry that is no group resolves. |
| Subscription.LooseMembersEscape | apps/web/src/server/subscription/template.ts:67-147 | A draft with one direct outbound whose outbounds array names nothing passes every check before the traversal, with whatever available nodes and whatever outbounds rendered for them that refer to no other, and leaves the graph open and acyclic, so compiling it throws. |
| Subscription.LooseWithClients | apps/web/src/server/adapters/sing-box/index.ts:61-67 | So it does with the trojan and hysteria2 outbounds the client renderer yields for every node. |
| Subscription.WalkMeans | apps/web/src/server/subscription/template.ts:126-133 | The walk succeeds if and only if every outbound, detour, download_detour and external_ui_download_detour at any depth names an outbound. |
| Subscription.ReservedAreGenerated | apps/web/src/server/subscription/template.ts:82-95 | The tags with the reserved prefix are exactly those of generated outbounds. |
| Subscription.CollectTags | apps/web/src/server/subscription/template.ts:82-88 | Accepts exactly non-empty, unreserved, distinct tags. |
| Subscription.AddGenerated | apps/web/src/server/subscription/template.ts:89-95 | The generated outbounds join the table, the last entry for a tag winning. |
| Subscription.FillBindings | apps/web/src/server/subscription/template.ts:96-114 | Succeeds exactly when every binding names its own group and selects something; each bound group gets its static and selected members. |
| Subscription.MembersSelected | apps/web/src/server/subscription/template.ts:104-111 | The collected members are the tags the filter selects. |
| Subscription.CheckReferences | apps/web/src/server/subscription/template.ts:116-136 | Succeeds exactly when groups, references and the route resolve. |
| Subscription.CheckLeaves | apps/web/src/server/subscription/template.ts:149-162 | Succeeds exactly when every bound group's leaves lie in its filter. |
| Graph.CheckCycles | apps/web/src/server/subscription/template.ts:137-148 | Passes exactly the closed acyclic graphs; on a closed graph it rejects if and only if there is a cycle. |
| Graph.CycleCheck.Visit | apps/web/src/server/subscription/template.ts:139-147 | Visiting leaves the stack as it was and marks the tag, finds a cycle only where there is one, and terminates on every graph. |
| Graph.SortedAcyclic | apps/web/src/server/subscription/template.ts:139-148 | The order in which tags are finished witnesses that the graph is closed and acyclic. |
| Graph.LeafFinder.ManagedLeaves | apps/web/src/server/subscription/template.ts:149-158 | The memoised search terminates on an acyclic graph and equals reachability, whatever the cache holds. |
| Upgrade.Host.RunUpgrade | services/daemon/internal/updater/upgrade.go:14-99 | With crashes between any two writes and the daemon acting in between: unless it crashed, the journal is terminal; succeeded means that the new binary is installed and was seen healthy, failed that the old one is installed unless the rollback itself failed. |
| Upgrade.Host.Switch | services/daemon/internal/updater/upgrade.go:56-75 | From the stop of the daemon to the replaced binary, with the same outcome. |
| Upgrade.Host.StartNew | services/daemon/internal/updater/upgrade.go:76-98 | From the replaced binary to the result: success only after the new daemon was seen healthy. |
| Upgrade.Host.RollbackUpgrade | services/daemon/internal/updater/upgrade.go:103-130 | Ends with the old binary installed, or with the rollback recorded as failed. |
| Upgrade.Host.Finish | services/daemon/internal/updater/report.go:128-168 | The outcome is journalled before the plan says so, and the plan is closed only after the acknowledgement. |
| Upgrade.Host.AwaitAcknowledgement | services/daemon/internal/updater/report.go:137-166 | Closes the plan if and only if the result is acknowledged. |
| Upgrade.Host.RecoverBeforeStart | services/daemon/internal/updater/upgrade.go:134-172 | Untouched while a helper works or nothing is open; otherwise a locally healthy upgrade becomes a success and any other has the old binary restored before the daemon starts. |
| Upgrade.Host.ConfirmRecoveryReady | services/daemon/internal/updater/upgrade.go:174-194 | Only the old daemon, after a restore, records the rollback as succeeded, and then the plan awaits acknowledgement. |
| Upgrade.Host.Deliver | services/daemon/internal/panelclient/executor.go:39-89 | While the plan is open a redelivered upgrade changes nothing and starts no second helper; a helper starts only with the old binary as backup and none running. |
| Upgrade.Host.ReportResult | services/daemon/internal/panelclient/executor.go:283-305 | Only a terminal result is acknowledged, and only then the plan is closed. |
| Upgrade.Host.Persist | services/daemon/internal/state/tasks.go:62-88 | A terminal journal row is never overwritten. |
| Upgrade.Host.Save | services/daemon/internal/updater/types.go:105-127 | The plan file obeys the register rules. |
| Upgrade.Host.WaitLocal | services/daemon/internal/updater/ready.go:59-98 | Health is confirmed only for a binary whose daemon reported readiness since the mark. |
| Upgrade.Live | services/daemon/internal/updater/upgrade.go:14-194 | Any interleaving of deliveries, restarts, helpers and crashes keeps the recorded outcome true: a pending result is already terminal, so no branch that claims success can relabel a rollback. |
| Upgrade.Act | services/daemon/internal/updater/upgrade.go:14-194 | One event keeps the invariant and every terminal result, and starts no helper while the plan is open. |
| Upgrade.Host.StartOld | services/daemon/internal/updater/upgrade.go:119-129 | From the restored binary to the result of the rollback. |
| Upgrade.Host.ConcludeNew | services/daemon/internal/updater/upgrade.go:93-98 | Local health is saved before the success is journalled. |
| PlanRegister.SurvivesExactly | services/daemon/internal/updater/types.go:105-127 | Once handed off, an upgrade's plan survives every continuation without another handoff if and only if no helper of another upgrade is still before its last save but the completion. |
| PlanRegister.PatientRuns | services/daemon/internal/updater/types.go:128-158 | In every run whose handoffs wait for such helpers, the plan file always speaks of the latest upgrade, and while its plan is open no second helper is started for it. |
| PlanRegister.Overtaken | services/daemon/internal/updater/types.go:105-127 | A run in which the daemon's guards admit a second upgrade too early: the first helper's pending result overwrites its plan, and the guards would start it again while its helper works. |
| Uninstall.Live | services/daemon/internal/updater/uninstall.go:61-303 | In every run with crashes and reboots: once local state is deleted, the panel has the terminal result, and unless somebody started the daemon between its confirmed stop and the removal of its unit file, the last ready daemon shut down cleanly and the outbox is empty. In a sound history the month ledger then holds exactly what was recorded, never more than was moved, and exactly that for a user all of whose runtimes were drained by daemons that shut down cleanly. |
| Uninstall.Installation.RunUninstall | services/daemon/internal/updater/uninstall.go:114-225 | One helper run from any phase keeps all of this, also when the daemon is started by hand in between, and a failed or closed uninstall keeps local state. |
| Uninstall.Installation.ConfirmStop | services/daemon/internal/updater/uninstall.go:141-171 | The process that stopped is the one that last became ready, and it left evidence of its final sample. |
| Uninstall.Installation.DrainUsage | services/daemon/internal/updater/uninstall.go:61-113 | Drained means that the outbox is empty; with a recorded recovery issue it never is. |
| Uninstall.Installation.DrainAndRemove | services/daemon/internal/updater/uninstall.go:172-210 | From the confirmed stop to the result, with starts by hand before the drain, after it and before the removal: success means that the outbox is empty and the daemon gone, unless there was such a start. |
| Uninstall.Installation.Meddle | services/daemon/internal/updater/uninstall.go:172-196 | A start by hand changes neither the helper's files nor the service; without one the host and its outbox stay as they were. |
| Meter.UsageMeter.Drain | services/daemon/internal/updater/uninstall.go:61-113 | The head of the outbox is sent until nothing waits. A recovery issue that is recorded ends the loop before anything is sent, and only that does so; otherwise it ends drained, on a lagging reply that raises the issue, on a failed acknowledgement, or when its time is up. In a sound history it only ends drained or out of time. |
| Meter.UsageMeter.Sample | services/daemon/internal/state/usage.go:44-160 | A sample that is refused changes nothing; an accepted one is the lock region's step of the whole accounting while the history is sound. |
| Meter.UsageMeter.Send | services/daemon/internal/updater/uninstall.go:84-110 | One call for the head: in a sound history it is acknowledged, lost, not yet accepted, or rejected for its credentials. |
| Meter.EmptySettles | services/daemon/internal/updater/uninstall.go:80-82 | In a sound history an empty outbox means that the month ledger holds everything recorded, at most what was moved, and exactly that for users whose runtimes cleanly closed daemons had drained. |
| Uninstall.Installation.Conclude | services/daemon/internal/updater/uninstall.go:212-224 | The successful result, its acknowledgement, and only then the deletion. |
| Uninstall.Installation.RemoveServices | services/daemon/internal/updater/uninstall.go:190-210 | Afterwards neither unit file nor binary is left, so no daemon can start. |
| Uninstall.Installation.Finish | services/daemon/internal/updater/report.go:128-168 | The result is journalled and acknowledged before the next phase. |
| Uninstall.Installation.UninstallFailed | services/daemon/internal/updater/uninstall.go:226-232 | A failure never ends in success and keeps local state. |
| Uninstall.Installation.Cleanup | services/daemon/internal/updater/uninstall.go:258-304 | Local state is deleted only in the acknowledged phase. |
| Uninstall.Installation.StopAndRemove | services/daemon/internal/updater/uninstall.go:141-210 | Reaches the result only with the daemon gone, its final sample persisted and the outbox empty, unless the daemon was started by hand. |
| PolicyRevision.Panel.Refresh | apps/web/src/server/configuration/policy.ts:26-53 | The revision grows by one when the fingerprint changes and only then; the returned users are the active ones within quota and are those the revision stands for; an error changes nothing. |
| PolicyRevision.Panel.Collect | apps/web/src/server/configuration/policy.ts:28-42 | The loop authorizes exactly the active users within quota, and fails exactly when an active user's month exceeds the metering range. |
| PolicyRevision.InitializeUserSecrets | apps/web/src/server/subscription/credentials.ts:9-20 | Missing credentials are made under generation 1; existing ones stay. |
| PolicyRevision.Panel.ResetProxyCredentials | apps/web/src/server/subscription/store.ts:49-54 | New secrets come with the next generation, so a generation never changes its secrets. |
| PolicyRevision.RevisionDetermines | apps/web/src/server/configuration/policy.ts:43-51 | Two reads of the authorization with any script of changes between them: the later revision is not lower, and equal revisions come with identical users and secrets. |
| PolicyRevision.Panel.MakePreview | apps/web/src/server/configuration/store.ts:58-70 | A preview renders the settings for the current revision's users; an error undoes the transaction. |
| PolicyRevision.Panel.Publish | apps/web/src/server/configuration/store.ts:72-104 | Publishes only a live preview of the current policy revision and configuration version; a repeated request finds its revision; an error undoes the transaction. |
| PolicyRevision.Panel.GetConfig | apps/web/src/server/configuration/store.ts:110-120 | Delivers a configuration that is its own revision's rendering, with an authorization at least as recent. |
| PolicyRevision.Panel.Reconcile | apps/web/src/server/configuration/store.ts:122-149 | Exactly the able machines that were behind, and whose transaction went through, get a new target rendered from their own settings for the current revision. |
| PolicyRevision.ReconciledIsCurrent | apps/web/src/server/configuration/store.ts:122-149 | Afterwards every able machine that was not refused desires at least the current revision. |
| Quota.Report | apps/web/src/server/usage/store.ts:88-145 | A report and its policy refresh in one transaction: after a committed report exactly those users are authorized whose month in the ledger, the report included, is below their limit; a refresh that fails undoes the posting, and an uncommitted report leaves the policy as it was. |
| Quota.EffectiveIsEntitled | apps/web/src/server/configuration/policy.ts:12-22 | The effective users are the active ones without a limit or with a month below it. |
| Quota.UsedBytes | apps/web/src/server/configuration/policy.ts:15-17 | The loop adds both directions of the user's month buckets over all machines. |
| PolicyRevision.Live | apps/web/src/server/configuration/policy.ts:26-53 | Over any changes of users, usage, credentials and machines: revisions never fall, a revision stands for the same users and secrets for ever, and every stored configuration and preview is the rendering of its settings for its own revision. |

## Left out

- One usage stream per daemon; rebinding to another installation, a panel that loses its stream row, and a stream identifier or digest of the wrong form (one flag of the request).
- Runtimes that are taken over without a known start (StartedAt 0) in the conservation theorems, bytes of a runtime whose process crashed before its final sample (they are bounded, not exact), and whether a switch of runtimes is flagged as incomplete.
- Instants beyond the range of ECMAScript dates, and the format check of a month string.
- The display values of a usage query: minute peak, quota warning, the overlay on the current point, period flags and limits of the requested range.
- Store writes that fail while the process lives: a failed commit followed by the early exit of Apply after PrepareCore can leave an engine below the floor, so the policy-floor theorems assume that store writes succeed or the process ends.
- The 4 MiB limit on configuration texts, and the order and duplicates of JSON object keys.
- Starting and stopping engines beyond their outcome; between raising the floor and replacing the engine inside one Apply the old engine still runs.
- The tracked flows of the TUN inbound: their counting is not fenced by closing, so the drain theorems are about connections and packet connections.
- `renderServer`, the machine store and the spelling of what `renderClient` yields are parameters; of client outbounds only the fields and references are modelled.
- Template limits (depth, element count, string lengths), the draft and preset builders, and the locale order of nodes, which only affects the order of generated outbounds.
- The whole-life theorem of `Upgrade` is about one upgrade from delivery to its end; what several share is the plan file, and that is `PlanRegister`.
- A `systemd-run` that reports failure although the helper runs, an inaccurate answer about a helper's activity, and binaries changed by others while a helper works with them; before and after they may be damaged or lost.
- Usage of a process that never became ready is not claimed to be complete, and after a daemon was started by hand during an uninstall nothing is claimed about its usage.
- Tasks other than upgrades and uninstalls, and how the journal accepts duplicates and lists pending results. In `PolicyRevision` alone the month total behind a quota is an input; `Quota` computes it for reports.
- Quota rows per period, subscription tokens, request keys beyond publication, and wake-up notifications.
- Diagnostics, health texts, logs, downloads, ELF and process checks, lock files, the web interface, sessions and backups.
