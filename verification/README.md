# Verified model of the wireless network manager

The network manager polls access points and stations, raises alerts about them, delivers notifications and
upgrades firmware in bulk. This Dafny project models the parts of it in which steps of several functions, tables
and goroutines have to fit together, and proves what holds over every run.

`dafny verify dfyconfig.toml` checks everything.

| file | part of the system |
|---|---|
| `OutboxModel`, `OutboxProofs`, `OutboxTiming`, `OutboxSteps` | the durable notification outbox: claims, fencing tokens, retries, recoveries; what each transaction does to a row |
| `LifecycleModel`, `LifecycleProofs`, `LifecycleSteps` | rules, persistence and cooldown timers, alerts, their copies in memory, reloads query by query; what each operation does to them |
| `LifecycleExact`, `LifecycleRaces` | which steps endanger the one open alert of a rule and device, and two races in which they do |
| `LifecycleRestart` | memory against the tables, and what a restart can change |
| `LifecycleSpacing`, `LifecycleEarliest` | the distance between alerts, and exactly when one can come too early |
| `LifecycleDelivery` | every manager history is an outbox history |
| `AlertManager`, `StateKeys` | the manager as a class whose methods update tables and caches in place; its text keys |
| `BulkModel`, `BulkProofs`, `BulkSteps`, `BulkRetry` | the bulk-operation controller as interleaved goroutines, and its retry loop |
| `FirmwareVersions`, `FirmwareFiles`, `FirmwareBulk` | version comparison, file names, the two selectors, the grouped upgrade |
| `PollerReachability`, `PollerTopology` | circuit breaker, offline verdict, peer snapshots; the device graph |
| `RateLimiter` | the fixed-window limiter of the HTTP server |
| `Basics`, `Text` | small datatypes and Go's string helpers |

## How to read it

The files whose names end in `Steps` say what single operations do, in terms of columns, entries and positions alone,
without the functions that define the operations; the laws in the other files build on them.

A protocol is a function from a state and a step to a state, and a theorem speaks about the state after an
arbitrary sequence of steps. Steps of different workers, passes and operators interleave freely; a step that is
not enabled, or whose transaction fails, leaves the state alone. A worker may use its claim at any later time, more
than once, or never, which is how crashes appear. A manager operation is split where another goroutine can come
between: before the memory write that follows a commit, between the two halves of `handleTriggered`, and between the
three queries and the installation of a reload. Code that updates objects or tables in loops is modelled as a method
with the same loops, and its contract ties the new state to the step functions; the methods of
`AlertManager.Manager` without a row below take the steps that their contracts name.

## What the proofs found

- A second alert of the same rule and device can open while the first is open. After any undisturbed history, one more
  step makes this possible if and only if it is one of four: an attempt for a rule disabled since the pass copied it,
  an alert committed after its state row was deleted while its rule is enabled, and a late memory write or reload
  that forgets an open alert (`LifecycleExact.OneOpenExact`). Two such histories start from the empty system: a rule
  edited between the two halves of `handleTriggered`, and a reload that reads before an alert and installs after it
  (`LifecycleRaces.RacesHappen`). A reload after whose queries no alert was committed is harmless
  (`LifecycleRaces.ReloadHarmless`).
- Alerts of a rule and device are max(duration, cooldown) apart as long as nothing makes memory forget. After an alert,
  whatever late memory writes and outdated reloads have done, another one can come too early if and only if memory has
  the rule and lets it fire that soon when the next pass begins (`LifecycleEarliest.SpacingExact`). From the empty
  system a reload leads to a second alert at once, although the rule asks for five minutes.
- A restart lets a key fire that would not have fired without it if and only if memory says that the alert is out, its
  window is not over or its cooldown runs (`LifecycleRestart.RestartExact`). If memory agrees with the row, that leaves a
  cooldown from before the last edit of the rule, and such a cooldown can come back
  (`LifecycleRaces.StaleCooldownHappens`).
- Every start of the program closes the open alerts of disabled rules without their recoveries, for good
  (`LifecycleDelivery.RestartDecidesRecovery`). Such an alert is left by a rule disabled between the two halves of
  `handleTriggered`.
- Version comparison is antisymmetric on all strings, but not transitive: a tagged version is below every proper
  prefix of its numbers, that prefix is below every longer untagged version, and one with a smaller last number is
  below the tagged one, as in `4.1.5-rc1 < 4.1 < 4.1.3 < 4.1.5-rc1` (`FirmwareVersions.TaggedCycle`). A class of
  versions is ordered if and only if they all have the same count of numbers, or none has a tag
  (`FirmwareVersions.OrderedExact`).
- Numbers beyond 64 bits compare as text. Released files are ordered like their numbers if and only if the first two
  numbers that differ agree with their texts (`FirmwareFiles.ReleaseOrder`); 9 * 10^k comes out above 10^(k+1).
- The circuit breaker's backoff overflows from the thirty-first failure in a row. For all but ten failure counts
  after that the device is not backed off at all (`PollerReachability.BackoffExact`).
- A row whose eighth claim expired is left `failed` with eight attempts and is never claimed again; `OutboxProofs.Progress`
  says exactly which rows can still be delivered.
- The rate limiter lets through at most `2 * limit - 1` requests in a closed interval as long as its window, and
  reaches that number for every limit and window.
- A poll of an access point keeps the device graph a forest if and only if it corrects its row, the row is an access
  point, or nobody is adopted (`PollerTopology.EventExact`). An uncorrected poll can put stations under a row of unknown
  role, and then `breakStaParentLoops` does not repair the graph (`PollerTopology.RepairExact`).

## Model

| member | source | states |
|---|---|---|
| OutboxProofs.DeliveryOrder | internal/alerting/notifications.go:159-173 | after every history, a recovery that is being sent or was sent has a trigger that was sent or given up on, and no further history changes that trigger |
| OutboxProofs.TerminalForever | internal/alerting/notifications.go:128-303 | rows never disappear, attempts never decrease, and a sent or dead row never changes again |
| OutboxProofs.TokensDistinct | internal/alerting/notifications.go:198-208 | no two claims of any history hand out the same row and attempt number |
| OutboxProofs.Fenced | internal/alerting/notifications.go:232-246 | once a claim is recovered, cancelled or superseded, neither mark step of its worker changes the database, whatever happened since |
| OutboxProofs.MarkSpendsToken | internal/alerting/notifications.go:266-294 | recording one result makes the token useless for a second |
| OutboxProofs.RankFalls | internal/alerting/notifications.go:305-329 | every change of a row outside sysmon decreases twice the attempts left plus the rank of its status |
| OutboxProofs.BoundedRetries | internal/alerting/notifications.go:128-303 | such a row changes at most 17 times after its creation and is handed out at most 8 times |
| OutboxProofs.NoRecoveryBeforeClose | internal/alerting/notifications.go:559-569 | an open alert has no recovery rows, so the conflict branch that resets attempts is unreachable |
| OutboxProofs.CloseExact | internal/alerting/notifications.go:411-575 | closing a reachable open alert succeeds, kills the waiting triggers, and adds a fresh recovery row on exactly the channels whose trigger was sent or in flight and whose rule wants one |
| OutboxProofs.RecoveryComplete | internal/alerting/notifications.go:516-573 | on a closed alert a trigger in flight or ever recorded sent has a recovery row exactly if the close wanted one, and no trigger waits, unless a start of the program closed the alert |
| OutboxProofs.RetiredForGood | cmd/server/schema_optional.go:141-143 | what a start of the program closes gets no recovery, and no trigger of it is handed out again, whatever happens later |
| OutboxProofs.Progress | internal/alerting/notifications.go:128-208 | a row can be handed out again in some future if and only if it is unfinished, has attempts left or is sysmon, and is a recovery or belongs to an open alert |
| OutboxProofs.WayOutWorks | internal/alerting/notifications.go:128-143 | for such a row waiting, one stale-claim recovery and one claim are enough |
| OutboxProofs.DeadEnd | internal/alerting/notifications.go:155-177 | no other row is ever handed out again |
| OutboxProofs.RecoveryUnblocks | internal/alerting/notifications.go:159-173 | a due recovery with attempts left is claimable unless its trigger is in flight; then the first stale-claim recovery five minutes after that claim makes it claimable |
| OutboxProofs.FailureSchedule | internal/alerting/notifications.go:305-329 | delays double from 5 s to 1 min on sysmon and from 30 s to 30 min elsewhere; only the eighth failure outside sysmon is final |
| OutboxTiming.ClaimExclusive | internal/alerting/notifications.go:128-143 | for five minutes after a claim no step but the recording of its own result touches the row |
| OutboxTiming.TimelyResultCounts | internal/alerting/notifications.go:226-246 | a success recorded within five minutes of its claim always makes the row sent |
| OutboxTiming.RetryWaits | internal/alerting/notifications.go:266-303 | after a recorded failure nobody is handed the row before its backoff is over; then it is claimable, except exactly after the last attempt or for a trigger whose alert has closed |
| OutboxSteps.ClaimExact | internal/alerting/notifications.go:145-208 | after every history a claim hands out the next attempt of a row if and only if the row is pending or failed, due, decodes, has attempts left or goes to sysmon, and is a trigger of an open alert or a recovery whose trigger is not being sent; then it changes that row alone |
| OutboxSteps.OpenExact | internal/alerting/manager.go:782-820 | opening an alert adds one pending row, due at once, for each channel of the rule, and nothing else |
| OutboxSteps.FreshAlertIsClaimed | internal/alerting/notifications.go:159-208 | right after an alert opens, each of its channels can be handed out as attempt one |
| OutboxSteps.SentExact | internal/alerting/notifications.go:226-264 | a success counts exactly while the row is being sent as that attempt |
| OutboxSteps.FailedExact | internal/alerting/notifications.go:266-329 | a failure then sets the backoff in full, or gives up after the eighth attempt outside sysmon and on triggers of closed alerts |
| OutboxSteps.ReclaimExact | internal/alerting/notifications.go:128-143 | a row is taken back exactly if it is being sent and was last changed more than five minutes ago |
| LifecycleModel.CloseOneMore | internal/alerting/notifications.go:335-402 | closing a set of alerts in one transaction is closing all but any one of them and then that one |
| LifecycleModel.LoadLast | internal/alerting/manager.go:272-294 | the loaded cooldown of a key is the latest alert opened since its rule was last edited, present if and only if there is one |
| LifecycleSteps.SilenceExact | internal/alerting/manager.go:1455-1507 | after any history, silencing a device resolves exactly its alerts, with the recoveries their rules want, leaves alerts and rows of others alone, and drops exactly its states |
| LifecycleSteps.EditExact | internal/alerting/manager.go:1092-1133 | editing a rule resolves exactly its alerts, with the recoveries of its old definition, drops exactly its states, and dates the new definition |
| LifecycleSteps.RemoveExact | internal/alerting/manager.go:1135-1166 | removing a rule does the same, deletes its row and takes its id off its alerts |
| LifecycleSteps.ClearExact | internal/alerting/manager.go:824-864 | when a condition is over, the alerts of the pair are resolved if its state says notified, and its state is dropped from table and memory |
| LifecycleSteps.ResolveExact | internal/alerting/manager.go:1397-1450 | resolving an alert by hand resolves it alone and drops the state of its pair |
| LifecycleSteps.ObserveExact | internal/alerting/manager.go:719-761 | an observation opens an alert if and only if the condition has held for the duration, no alert is out and the cooldown is over; a new condition begins now |
| LifecycleSteps.OpenedExact | internal/alerting/manager.go:782-820 | the alert is active on the pair, has one pending trigger row on each channel of the rule and no other, and marks the state |
| LifecycleSteps.LoadExact | internal/alerting/manager.go:170-294 | a reload loads exactly the enabled rules, their states, and per pair the time of the latest alert since the last edit of the rule |
| LifecycleSteps.RuleForgotten | internal/alerting/manager.go:1008-1024 | the memory write after an edit forgets exactly the states and cooldowns of the rule |
| LifecycleSteps.DeviceForgotten | internal/alerting/manager.go:1026-1040 | the one after a silence exactly those of the device |
| LifecycleSteps.RestartTables | cmd/server/schema_optional.go:141-145 | a start of the program resolves exactly the alerts of disabled rules, touches no row of the outbox and drops exactly their states |
| LifecycleProofs.ReloadKeepsCooldowns | internal/alerting/manager.go:272-294 | after every history, the tables still hold every cooldown in memory that is no older than the last edit of its rule, and never date one earlier |
| LifecycleProofs.OneOpenAlert | internal/alerting/manager.go:719-864 | over every undisturbed history at most one alert per rule and device is open |
| LifecycleProofs.KeepsSafe | internal/alerting/manager.go:362-864 | each undisturbed step keeps at most one open alert per key, with its state marked notified in the table and in the memory that passes look at |
| LifecycleExact.OneOpenExact | internal/alerting/manager.go:362-864 | after any undisturbed history, some undisturbed continuation of a further step leads to two open alerts of a key if and only if that step is one of four disturbances |
| LifecycleExact.DisturbedBreaks | internal/alerting/manager.go:719-864 | after each disturbance, in whatever state, there is such a continuation |
| LifecycleExact.FireExact | internal/alerting/manager.go:782-820 | committing an alert makes a second one possible if and only if the state row of the first half is gone and its rule is enabled |
| LifecycleRaces.ReloadHarmless | internal/alerting/manager.go:362-394 | a reload since whose query of the states no alert was committed, and that knows the occurrence about to become one, disturbs nothing |
| LifecycleRaces.EditRace | internal/alerting/manager.go:1092-1133 | whenever a rule is edited between the two halves, by any definition, two passes as far apart as its duration open a second alert beside the first |
| LifecycleRaces.ReloadRace | internal/alerting/manager.go:362-394 | whenever a reload whose copy is ready to fire installs after an alert of the key, the next pass opens a second alert beside the first |
| LifecycleRaces.RacesHappen | cmd/server/api.go:2963-2967 | both races happen in histories from the empty system that are undisturbed up to that commit or installation, and the second one breaks the spacing |
| LifecycleRaces.DisabledAlertHappens | internal/alerting/manager.go:1092-1133 | from there too, an alert of a rule disabled meanwhile is committed and stays open |
| LifecycleRaces.StaleCooldownHappens | internal/alerting/manager.go:811-820 | and a cooldown from before an edit is written down after it, which a restart forgets while it runs |
| LifecycleRestart.InStepExact | internal/alerting/manager.go:719-1166 | while no write is owed for a key, a step keeps the state in memory equal to the row if and only if it is no late write or reload that differs from the row |
| LifecycleRestart.Mirrored | internal/alerting/manager.go:362-394 | from any reachable world in which that holds, as after a restart, and without such a write since, memory has the row of an enabled rule and no more once nothing is owed; edits, silences and stale rule copies may interleave |
| LifecycleRestart.RestartExact | internal/alerting/manager.go:756-761 | in any world with a current rule, a restart lets a key fire that would not have fired without it if and only if memory withholds it or its cooldown runs |
| LifecycleRestart.RestartNeverEarlier | internal/alerting/manager.go:362-394 | after any history, if memory agrees with the row and has the rule and no cooldown from before its last edit, what fires after a restart would also have fired without it, in the same window |
| LifecycleRestart.RestartEarlierExact | internal/alerting/manager.go:272-294 | if memory agrees with the row and has the rule, a restart lets the key fire earlier exactly while a cooldown from before its last edit runs |
| LifecycleRestart.RestartNeverFirst | internal/alerting/manager.go:362-463 | then over any further passes, whatever they observe and whichever transactions fail, the restarted process opens no alert of the key before the other would have |
| LifecycleRestart.StaleCooldownComesBack | internal/alerting/manager.go:811-820 | whenever an edit and its memory write come between the commit of an alert and the writing of its cooldown, memory agrees with the row, and yet a restart lets the key fire earlier |
| LifecycleSpacing.KeepsSince | internal/alerting/manager.go:1026-1040 | the tables know of an alert until its rule is edited or removed, whatever memory does; in a calm step memory keeps knowing of it too, or stays the copy it was |
| LifecycleSpacing.AlertSpacing | internal/alerting/manager.go:756-761 | after any history, alerts of a key are at least max(duration, cooldown) apart until the rule is edited, the device silenced, a memory write of an earlier edit or silence settled or an outdated reload installed, across manual and automatic resolution, restarts, stale rule copies and lost state rows |
| LifecycleSpacing.AlertRate | internal/alerting/manager.go:756-820 | until then, alerts i to j inside an interval satisfy gap * (j - i) <= length, so it holds at most length / gap + 1 of them |
| LifecycleSpacing.OutdatedReloadBreaks | internal/alerting/manager.go:388-392 | a copy installed right after an alert breaks the spacing in the next pass if and only if it is ready to fire and its timers reach back to the alert |
| LifecycleEarliest.SpacingExact | internal/alerting/manager.go:362-394 | after an alert and any steps but an edit or removal of its rule, late memory writes, outdated reloads and silences included, when a pass begins some calm continuation opens another alert of the key less than max(duration, cooldown) after it if and only if memory has the rule and lets it fire that soon |
| LifecycleDelivery.CloseManyIsRun | internal/alerting/notifications.go:335-402 | the closes of one transaction are a run of single closes |
| LifecycleDelivery.ActionIsRun | internal/alerting/manager.go:719-864 | every operation of the manager is a run of outbox steps |
| LifecycleDelivery.ManagerRefinesOutbox | internal/alerting/manager.go:719-1507 | every manager history is an outbox history, so the outbox theorems hold of it |
| LifecycleDelivery.ManagerDeliveryOrder | internal/alerting/notifications.go:331-334 | delivery order over manager histories |
| LifecycleDelivery.ManagerRecoveryComplete | internal/alerting/notifications.go:409-575 | complete recoveries over manager histories, but for alerts that a start of the program closed |
| LifecycleDelivery.RestartDecidesRecovery | cmd/server/schema_optional.go:141-145 | after any history, an open alert whose trigger was or may be recorded sent loses its recovery for good in a restart if its rule is disabled; otherwise resolving it afterwards gives the recovery exactly if its rule wants one |
| AlertManager.Manager.SelectDue | internal/alerting/notifications.go:159-177 | picks a claimable unlocked row of the worker's kind with the earliest due time, none only if all such rows are locked |
| AlertManager.Manager.ClaimNotification | internal/alerting/notifications.go:145-209 | the claim is that row with one more attempt; a corrupt payload kills the row instead |
| AlertManager.Manager.WorkOnce | internal/alerting/notifications.go:99-118 | one round of a worker is a claim of a claimable row and at most one recording with that claim; without a row nothing changes but that a row with a corrupt payload may die |
| AlertManager.Manager.ResolveAlertTx | internal/alerting/notifications.go:411-575 | the loop over triggers yields exactly the closed database, and fails exactly if no recovery payload can be rebuilt |
| AlertManager.Manager.ResolveEachTx | internal/alerting/notifications.go:335-402 | the loop over alerts yields exactly the database with all of them closed |
| AlertManager.Manager.TrackCondition | internal/alerting/manager.go:719-761 | the first half of handleTriggered is the observe step, the rollback of a failed insert and both timers included |
| AlertManager.Manager.Evaluate | internal/alerting/manager.go:396-463 | a pass copies the rules, reads the clock and then takes the steps of its observations in order |
| AlertManager.PassIsHistory | internal/alerting/manager.go:396-463 | so a pass is a history of the step model |
| AlertManager.Manager.DropStates | internal/alerting/manager.go:1008-1040 | the loop drops exactly the states of the rule or device |
| AlertManager.Manager.DropCooldowns | internal/alerting/manager.go:1008-1040 | and the other loop exactly its cooldowns |
| AlertManager.Manager.LoadLastNotified | internal/alerting/manager.go:272-294 | the grouped maximum, computed one alert at a time |
| AlertManager.Manager.Reload | internal/alerting/manager.go:362-394 | is the three queries and the installation in a row |
| AlertManager.ReloadUninterrupted | internal/alerting/manager.go:362-394 | then memory becomes what the tables determine and nothing else changes |
| AlertManager.Manager.UpdateRule | internal/alerting/manager.go:1092-1133 | is the commit of the edit, the memory write that it owes and a reload, in a row |
| StateKeys.RulePrefixExact | internal/alerting/manager.go:1008-1024 | a key has the rule's prefix if and only if it is of that rule |
| StateKeys.DeviceSuffixExact | internal/alerting/manager.go:1026-1040 | a key has the device's suffix if and only if it is of that device |
| StateKeys.StateKeyInjective | internal/alerting/manager.go:717 | different pairs have different keys |
| BulkProofs.TransitionBalances | internal/bulkops/controller.go:296-345 | every move of a goroutine changes a semaphore or counter exactly as it changes what the goroutine holds |
| BulkProofs.KeepsExact | internal/bulkops/controller.go:272-345 | in every state each semaphore and counter equals the number of goroutines it stands for |
| BulkProofs.SemaphoreSafety | internal/bulkops/controller.go:290-317 | running operations never exceed the global, per-job and per-AP limits |
| BulkProofs.DeadlockFree | internal/bulkops/controller.go:290-317 | with limits of at least one, some goroutine can move if and only if one is unfinished, cancelled jobs included |
| BulkProofs.Terminates | internal/bulkops/controller.go:272-347 | no run makes more than eleven moves per device |
| BulkProofs.FanoutGate | internal/bulkops/controller.go:559-591 | the access point decides after every station of its job has ended, and its operation runs if and only if at least half of them succeeded or there are none |
| BulkProofs.Conservation | internal/bulkops/controller.go:327-335 | when a job's goroutines are finished every result is counted once under one status, save results without status when no attempt is allowed; uncancelled jobs have one result per device |
| BulkSteps.AdvanceExact | internal/bulkops/controller.go:272-335 | in every reachable state a goroutine goes on if and only if fewer goroutines are inside than the limit of its job, its access point or the controller, and nobody else of its job is starting |
| BulkSteps.QuitExact | internal/bulkops/controller.go:290-311 | it gives up only where it waits, and only if its job is canceled |
| BulkSteps.StationsExact | internal/bulkops/controller.go:566-567 | the gate compares with the number of stations of the job |
| BulkSteps.TallyExact | internal/bulkops/controller.go:323-335 | when a job has finished, it reports as succeeded those that ended in success, as failed those that failed and, in fanout jobs, those canceled or never tried, as skipped those canceled in ordinary jobs and the refused access point |
| BulkRetry.BackoffBound | internal/bulkops/controller.go:389-397 | a computed backoff exceeds the maximum by at most five percent |
| BulkRetry.BackoffWithin | internal/bulkops/controller.go:389-397 | and it is the last one times the multiplier, at most the maximum, within five percent and a nanosecond |
| BulkRetry.ExecuteWithRetry | internal/bulkops/controller.go:349-416 | the reported attempt is the first that ends the loop, the status is its verdict, there is one wait per attempt before it and one more exactly if the job is canceled while it waits, and waits follow the backoff rule and stay below 1.05 times the maximum |
| FirmwareVersions.SplitVersion | internal/firmware/service.go:887-905 | the tokens are the maximal runs without separators |
| FirmwareVersions.SeparatorsExact | internal/firmware/service.go:887-905 | dots, hyphens and underscores separate parts, and nothing else does |
| FirmwareVersions.NormalizeExact | internal/firmware/service.go:827-838 | spaces around a version and one v, V or vV before it do not matter |
| FirmwareVersions.PrereleaseExact | internal/firmware/service.go:907-916 | a part is a prerelease tag exactly if it begins with rc, beta, alpha, dev or pre, in small or capital letters |
| FirmwareVersions.TextExact | internal/firmware/service.go:843-864 | one text is below another exactly if it is smaller at the first difference or a proper prefix |
| FirmwareVersions.PartsDecide | internal/firmware/service.go:843-864 | parts that are not both numbers are equal but for case, or a tag is below anything else, or the texts decide |
| FirmwareVersions.FirstPartDecides | internal/firmware/service.go:839-865 | the first pair of parts that differs decides |
| FirmwareVersions.LengthDecides | internal/firmware/service.go:866-885 | a list of parts that continues another is above it exactly if what it adds has no tag |
| FirmwareVersions.Antisymmetric | internal/firmware/service.go:827-885 | swapping the arguments negates the result, for all strings |
| FirmwareVersions.RanksDecide | internal/firmware/service.go:839-885 | on any fixed count of numbers with at most one prerelease tag the result is the order of the numbers, releases above prereleases |
| FirmwareVersions.VersionsDecide | internal/firmware/service.go:827-885 | the same for the version strings |
| FirmwareVersions.Transitive | internal/firmware/service.go:827-885 | there it is transitive, strictly if one step is strict |
| FirmwareVersions.UntaggedTransitive | internal/firmware/service.go:827-885 | without tags it is transitive for any counts of numbers |
| FirmwareVersions.TaggedCycle | internal/firmware/service.go:866-885 | every tagged version text whose last number is positive and fits an int is in a cycle with each proper prefix of its numbers, whatever the numbers before it |
| FirmwareVersions.OrderedExact | internal/firmware/service.go:827-885 | so a class of versions is ordered if and only if they have one count of numbers or no tags |
| FirmwareFiles.ExtractVersion | internal/firmware/service.go:1744-1774 | the nested loops find the first version part and at most two more, a part with a suffix being the last |
| FirmwareFiles.VersionExact | internal/firmware/service.go:1744-1774 | the version is the first part that is a v and a digit, with the next two as long as they begin with a digit and what went before was only a number |
| FirmwareFiles.FlavorOfName | internal/firmware/service.go:1627-1729 | the first part of a name, in capital letters, is the flavor if it is a known one; otherwise the file has neither flavor nor version |
| FirmwareFiles.FlavorExact | internal/firmware/service.go:657-659 | a file fits a flavor exactly if the two are the same but for small and capital letters |
| FirmwareFiles.ReleaseVersion | internal/firmware/service.go:1627-1774 | a name F.S.vA.B.C.tail.bin yields version vA.B.C and its first part as flavor |
| FirmwareFiles.ReleaseOrder | internal/firmware/service.go:827-885 | comparing the versions of two such names gives equal exactly for equal numbers, and else the lexicographic order of (A, B, C) if and only if the first two numbers that differ agree |
| FirmwareFiles.BeyondInt | internal/firmware/service.go:843-853 | a number that does not fit is compared as text |
| FirmwareFiles.NumbersCompare | internal/firmware/service.go:843-853 | two numbers compare in their order if and only if both fit an int or their texts are in that order |
| FirmwareFiles.BigReleasesReversed | internal/firmware/service.go:843-853 | for every k from 18 on, a released file of version 9 * 10^k comes out newer than one of version 10^(k+1) |
| FirmwareFiles.FindFirmwareForFlavor | internal/firmware/service.go:649-687 | returns the newest file whenever one has a version, else the last candidate by name, and nothing if and only if there is no candidate, for any comparator |
| FirmwareFiles.SelectFirmwareForDevice | internal/firmware/service.go:691-715 | returns the same newest file, so the dry run shows what the upgrade uses |
| FirmwareFiles.PathsDecide | internal/firmware/service.go:668-678 | choosing by the candidates' paths and choosing by the files is the same choice |
| FirmwareFiles.NewestIsMaximum | internal/firmware/service.go:691-715 | if the versions that fit are such a class, the selected file is the first of the newest ones |
| FirmwareBulk.GroupByParent | internal/firmware/service.go:2071-2087 | devices without or with unknown parent are access points, the others are grouped by parent, in order |
| FirmwareBulk.ListedExact | internal/firmware/service.go:2071-2087 | each group holds every requested device with that parent as often as requested, and no other; a device that is not in the database has none |
| FirmwareBulk.RoundKeepsProgress | internal/firmware/service.go:2096-2130 | one access point with its stations keeps the count and the order |
| FirmwareBulk.UpgradeBulk | internal/firmware/service.go:2066-2154 | every requested device has as many results as requests, and no station comes after its access point, for every list, repeats and missing parents included |
| PollerReachability.BackoffExact | internal/poller/poller_core.go:436-444 | the backoff is min(2^(n-3), 15) minutes if and only if n <= 30 or n is one of ten values; otherwise it is not positive |
| PollerReachability.BackoffSchedule | internal/poller/poller_core.go:436-444 | in nanoseconds: one, two, four and eight minutes after the third to sixth failure, fifteen from the seventh to the thirtieth |
| PollerReachability.RunIsSuffix | internal/poller/poller_core.go:429-434 | the unreachable counter reaches n if and only if the last n outcomes were unreachable |
| PollerReachability.Breakers.ShouldSkip | internal/poller/poller_core.go:394-405 | a device is skipped if and only if it failed three times since its reset and the backoff after the last failure is not over |
| PollerReachability.Breakers.RecordFailure | internal/poller/poller_core.go:414-447 | the breaker reflects the history with this failure added |
| PollerReachability.Breakers.RecordSuccess | internal/poller/poller_core.go:407-412 | forgets the device and no other |
| PollerReachability.Breakers.GetDeviceStatus | internal/poller/poller_core.go:449-471 | offline if and only if this outcome and the two before it are unreachable |
| PollerReachability.Breakers.ReportFailure | internal/poller/airmax_poll.go:91-95 | the verdict agrees with the history after the failure is recorded |
| PollerReachability.Breakers.CleanCircuitBreakers | internal/poller/poller_core.go:530-541 | forgets exactly the devices whose last failure is older than thirty minutes |
| PollerReachability.SnapshotFilter.AcceptPeerSnapshot | internal/poller/poller_core.go:244-264 | an empty snapshot is accepted if and only if the one before it of the same access point was empty |
| PollerTopology.BreakExact | internal/poller/poller_core.go:819-840 | whatever the graph, the result is a forest if and only if no remaining parent link involves an unknown role |
| PollerTopology.BreakLeaves | internal/poller/poller_core.go:819-840 | a row whose link is missing, right or unresolved stays as it is whatever the others are, every other row loses its link alone, and no row comes or goes |
| PollerTopology.BreakMakesForest | internal/poller/poller_core.go:812-840 | with roles ap and sta only, any graph, cyclic ones included, becomes a forest of depth one |
| PollerTopology.BreakIdempotent | internal/poller/poller_core.go:819-840 | a second pass changes nothing, and a forest is left as it is |
| PollerTopology.ApsKept | internal/poller/children.go:175-190 | no peer list demotes an access point or gives it a parent, the conflicting upsert included |
| PollerTopology.AdoptRows | internal/poller/children.go:61-428 | a reported peer that can be looked up or stored becomes a station of the access point, or loses its parent if it is an access point itself; nothing else changes |
| PollerTopology.DeleteRows | cmd/server/api.go:1755-1779 | deleting a device deletes it and its children; others lose at most a link to a deleted row |
| PollerTopology.EditRows | cmd/server/api.go:1126-1147 | corrections and additions set the role of their row, clear the parent of an access point, and touch no other row |
| PollerTopology.RoleExact | internal/stats/role_infer.go:20-37 | which spellings mean an access point, which a station |
| PollerTopology.RolesStay | internal/poller/children.go:175-190 | a report changes nobody into or out of an access point, and adds stations only |
| PollerTopology.SomeAdopted | internal/poller/children.go:239-326 | an adoptable peer ends up a station whose parent is the reporting row, whatever the rest of the list says |
| PollerTopology.AdoptExact | internal/poller/children.go:61-428 | a report keeps the forest if and only if its row is an access point or no peer is adopted |
| PollerTopology.WavePollExact | internal/poller/wave_poll.go:336-362 | a Wave poll that finds an access point keeps the forest if and only if it corrects its row, the row is an access point or nobody is adopted; in any case if the row said the same when the poll was queued |
| PollerTopology.StationExact | internal/poller/wave_poll.go:364 | turning a row into a station keeps the forest if and only if nothing is below it |
| PollerTopology.EventExact | internal/poller/airmax_poll.go:226-246 | a poll, addition, deletion or pass keeps the forest if and only if no row with children is turned into a station and no uncorrected poll adopts anybody under something that is no access point |
| PollerTopology.ApplySound | cmd/server/api.go:1126-1147 | events keep every row of unknown role without relatives, but for that poll under such a row |
| PollerTopology.RepairExact | internal/poller/airmax_poll.go:226-246 | after one event one pass of breakStaParentLoops leaves a forest if and only if no uncorrected poll put stations under a row of unknown role that is not in its own list |
| PollerTopology.RunHeals | internal/poller/poller_core.go:735-744 | from the empty table, after any run of repairable polls, additions and deletions one pass leaves a forest, and it stays one as long as every event meets the condition of EventExact |
| PollerTopology.DeviceTable.UpdateStasInDb | internal/poller/children.go:61-467 | the loop over peers with its branches is the fold the lemmas speak about |
| RateLimiter.SlidingBound | cmd/server/main.go:1222-1280 | over every run no closed interval as long as the window lets through more than 2 * limit - 1 requests of one client, whatever cleanup forgets |
| RateLimiter.TableBound | cmd/server/main.go:1248-1256 | the table never has more than ten thousand entries |
| RateLimiter.BoundReached | cmd/server/main.go:1258-1268 | for every limit and window some run reaches 2 * limit - 1 |
| RateLimiter.BurstGranted | cmd/server/main.go:1264-1272 | in an open window every request up to the limit is let through |
| RateLimiter.RequestExact | cmd/server/main.go:1248-1277 | from any state a request is let through exactly if it starts a new window, for a known client or with fewer than ten thousand of them, or if the open window has let through less than the limit |
| RateLimiter.BurstExact | cmd/server/main.go:1258-1272 | in a new window exactly the first limit requests of a burst are let through, the opening one included |
| RateLimiter.WindowExact | cmd/server/main.go:1258-1277 | then every further request in that window is refused, and the first one after it is let through |
| RateLimiter.TickExact | cmd/server/main.go:1233-1245 | a tick forgets exactly the clients whose window is over |
| RateLimiter.Limiter.Allow | cmd/server/main.go:1242-1277 | a request is the serve step of the model, is logged exactly if it is let through, and is let through exactly if the columns of its client allow it |
| RateLimiter.Limiter.Cleanup | cmd/server/main.go:1233-1245 | a tick is the sweep step of the model |

## Left out

Alerts and delivery:

- Row ids. A row is named by its unique key; among rows due at the same time the claim picks any.
- Channels other than email, webhook, zabbix and sysmon.
- Columns that only report: error texts, `notified_at` and its relatives, `sent_at`, last values, messages, severities.
- Payload contents beyond whether they decode and whether they want a recovery.
- Delivery itself. A delivery succeeds, fails or never ends; one that goes on for more than five minutes can be
  overtaken, and the order proved is that of durable rows.
- PostgreSQL isolation. A transaction is one step. A statement outside one is a step too, but the insert of a state and
  its entry in memory are one step, and so are start-up and restart.
- A failing reload, rule validation, the disabling of invalid rules, deletion of devices, and the startup migrations but
  those that close alerts and delete states of disabled rules.
- A pass may read the clock again before any of its steps; the code reads it once.
- Metrics, scopes and conditions: the verdict for a rule and a device is an input of a pass.
- `AlertManager.Manager` runs one call at a time; interleavings are histories of the step model.
- Rounding of timestamps to microseconds.
- AlertManager.Manager.Evaluate: which pairs a pass visits, and the pruning of states it no longer sees, are inputs.
- LifecycleProofs.OneOpenAlert: only over undisturbed histories, because it is false over the others; OneOpenExact
  shows that each of the four disturbances makes a second alert possible and no other step does.
- LifecycleRestart.RestartNeverEarlier: only for keys whose state in memory agrees with the row, because it is false
  otherwise; RestartExact has the exact condition, and InStepExact says which steps put memory out of step.
- LifecycleSpacing.AlertSpacing: sufficient conditions for whole runs; SpacingExact has the exact one, pass by pass.
- LifecycleRestart.RestartNeverFirst: further passes over one key. Over a continuation with operators and other
  keys the two runs hold different alerts, and their later steps are not comparable.

Bulk operations:

- The controller is modelled on values as interleaved goroutines, not as a class; one step is one channel, mutex or
  atomic operation. `UpdateConfig` while jobs run is left out, because it replaces the channel a release reads.
- `DryRun`, job tables, log lines and the message matching of `isRetryable`; whether an error is retryable is an input.
- Floating point: products are exact reals, truncated when they become a duration.

Firmware:

- Text is ASCII. Case folding and trimming of other characters are not modelled.
- The directory walk, uploads, the upgrade of one device, and selection by exact version.
- Results of a bulk upgrade are device ids; success or failure of each does not affect the order.

Poller:

- Two clock readings in one call are one. Failure counters do not overflow.
- The live statistics store, addresses, sites, names and other columns of a device row. Two rows never share a MAC.
- The lookup and the write for one peer are one step, except that a row may appear between them.
- Database errors of the role corrections after a poll. Whether a poll corrects its row is an input.
- The rebuilding of the hierarchy at start-up, and a device that takes over another MAC.

Not modelled at all: HTTP, SMTP, TLS, device clients, scheduling, the transport of polls, settings, jobs of `internal/jobs`, reports.
