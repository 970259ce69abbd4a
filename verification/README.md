# Verified model of the Android bridge and the Go core's own logic

This project models, in Dafny, the parts of the app's Android bridge that carry hard state, and
proves what they promise over all inputs, all interleavings and all histories.

- **Network recovery** (`HealthMonitor`, `HealthSystem`, `HealthInvariants`, `HealthVerdicts`,
  `HealthSafety`, `HealthConvergence`). When Android reports another network, the core checks the health of its
  proxy providers. The monitor, the variables of the select loop and the bodies of its branches
  are classes whose methods update fields; each method is proved against a function. From the same
  functions `HealthSystem` builds a system of interleaved steps: callers, one loop per run ever
  started, four workers per run, and a clock. Taking a token and taking the snapshot are separate
  steps; so are a firing timer and its guard, and a guard and the HealthCheck it allows.
- **Network fingerprint** (`SortedText`, `NetworkFingerprint`). What makes two network snapshots
  count as the same, on which the monitor's early return relies.
- **VPN lifecycle** (`VpnLifecycle`, `VpnLifecycleSafety`, `VpnLifecycleDestroy`,
  `VpnLifecycleFailures`, `VpnLifecycleTasks`). The service's main thread and its lifecycle thread
  interleave between any two accesses to shared fields, as a step system with a program counter
  per thread; `VpnLifecycleTasks` says what each whole task and command comes to by itself.
- **Callback bridge** (`CallbackBridge`, `CallbackTimeouts`). Where each Flutter Result is while it
  waits for an answer: a class with the two slots, the handler queue, the timeouts, the intents on
  their way and the replies given.
- **Calls and service together** (`ServiceCalls`, `ServiceCallsSafety`, `ServiceCallsSettle`,
  `ServiceCallsTruth`). The two models above joined: calls send intents, the service's threads
  answer through the slots. Every call is answered by the service itself, exactly once, without
  the help of its timeout; and what it is told is what happened.
- **YAML merge and runtime overlay** (`YamlMerge`, `YamlPaths`, `YamlNode`, `RuntimeOverlay`,
  `RuntimeOverlayNodes`). The merge and the overlay on values, and the same operations rewriting
  nodes on the heap in place, with the sets of nodes they may reach.
- **DNS policy cache** (`DnsPolicy`, `DnsPolicyHistory`) and **log rotation** (`LogRotation`): classes with the
  fields, or files, that the originals change, and what any history leaves in them.

## Findings

- `onDestroy` does not always clean up. It reads `coreRunning` and then the shown state
  (ClashMiVpnService.kt:85) while the lifecycle thread may be between them. If it arrives while a
  native start can no longer be cancelled, with another start queued and no stop, the second start
  can be cancelled and show "disconnected" in between, and the core keeps running with nothing
  left to stop it. `DestroyIsSafeIffNotExposed` proves that this is the exact condition, for every
  state of every orderly history and every continuation; `DestroyCanStrandTheCore` is one such
  history in full.
- Existing `nameserver-policy` entries are left alone only for hosts that cover themselves: for a
  host its trie refuses, `dnsPolicyDomainCoversHost` (core.go:772-778) answers no, and the
  injection (core.go:747-750) overwrites an entry of that very spelling. `PolicyOnlyGrows` gives the
  exact condition; `EntryCanBeAltered` is an input, for a trie that refuses `a..b`, a host that
  `tailscaleControlHostFromURL` (core.go:838-843) lets through. Which hosts the trie refuses is
  foreign code and not part of this model.
- Refreshing the DNS policy while Android reports no servers drops the tracked entries
  (core.go:402-405), and the next refresh appends them at the end (core.go:413-419).
  `RefreshForgetsHistoryIff` says for every history exactly when that leaves a trace, and
  `SpellCanReorder` is an input at which it does.

- A call does not always get its timeout. A delayed timeout is never taken back
  (ClashmiVpnServicePlugin.kt:162-167, 215-219), and completes whichever call is waiting then.
  `StartGetsItsTimeIff` and `StopGetsItsTimeIff` prove exactly when a waiting call can be timed out
  too early; `LaterStartCutShort` is a history in which a start is timed out, and the service told
  to stop, after half of its time.

## Assumptions

- Revisions and times are natural numbers; the counter does not wrap. Times are in milliseconds.
- A HealthCheck takes any time and returns any verdict; native start and stop, foreground
  promotion, what precedes the registration of the network callback, the registration itself, and
  establishing and detaching the TUN succeed or fail freely.
- Android delivers every service intent that was sent, to the one instance that is modelled.
- An orderly lifecycle history is one in which promotion succeeds and Android delivers nothing
  after `onDestroy`. `FailedPromotionLeavesCoreRunning` and `LateStopShowsDisconnecting` show that
  both parts are needed.
- Each list of control hosts that reaches the DNS policy cache names every host once, as the
  collecting functions ensure (core.go:802-821).
- JSON encoding is injective and never empty (`Faithful`). Address normalisation, URL parsing,
  domain coverage and number formatting are arbitrary functions.
- The YAML trees that are merged have unique keys per mapping where a lemma says so, and those that
  are overlaid have whole pairs, as a parser leaves them.

## Model

| member | source | states |
|---|---|---|
| `SortedText.CanonicalIffSameElements` | core/mobile/android_network_info.go:62-63 | sorting and compacting two lists of strings gives the same list exactly if they have the same elements |
| `SortedText.StrictlySortedUnique` | core/mobile/android_network_health.go:67 | there is only one strictly increasing list of given names, so the order of the provider snapshot does not depend on map iteration |
| `NetworkFingerprint.CanonicalAddresses` | core/mobile/android_network_info.go:48-64 | the addresses, normalised, blank ones dropped, sorted, without repetition |
| `NetworkFingerprint.NormalizedElements` | core/mobile/android_network_info.go:48-64 | kept are exactly the normal forms of the addresses that are not blank |
| `NetworkFingerprint.HealthCheckFingerprint` | core/mobile/android_network_info.go:26-46 | the loop computes the fingerprint of the specification; `available` exactly if the named default interface is listed with a usable address |
| `NetworkFingerprint.FingerprintIsCanonical` | core/mobile/android_network_info.go:26-64 | two snapshots have equal fingerprints if and only if they have the same default interface and the same set of interfaces, each up to order and repetition of its addresses and servers |
| `NetworkFingerprint.EqualFingerprintsEqualAvailability` | core/mobile/android_network_health.go:51-53 | equal fingerprints imply equal availability, which the early return of `update` relies on |
| `HealthMonitor.ByName` | core/mobile/android_network_health.go:63-73 | the non-nil providers in increasing order of name, whatever order the map is ranged over in |
| `HealthMonitor.InOrderMembers` | core/mobile/android_network_health.go:63-73 | exactly the providers that are there are listed |
| `HealthMonitor.HealthMonitor.Update` | core/mobile/android_network_health.go:47-58 | the whole new state: nothing for an unchanged fingerprint, otherwise fingerprint, availability, next revision and a wake token |
| `HealthMonitor.HealthMonitor.SetProviders` | core/mobile/android_network_health.go:60-79 | the new providers by name, the next revision and a wake token; runs are kept |
| `HealthMonitor.HealthMonitor.Start` | core/mobile/android_network_health.go:81-92 | the old run retired, a fresh run with a wake token, the next revision; the stop channel of a run is never closed twice |
| `HealthMonitor.HealthMonitor.Stop` | core/mobile/android_network_health.go:94-107 | the run retired, no providers, the next revision; no second close |
| `HealthMonitor.HealthMonitor.WakeLocked` | core/mobile/android_network_health.go:109-116 | the one slot of the live run is filled, or was full already |
| `HealthMonitor.HealthMonitor.TakeSnapshot` | core/mobile/android_network_health.go:118-122 | the published snapshot, and whether the asking run is the live one |
| `HealthMonitor.HealthMonitor.Current` | core/mobile/android_network_health.go:124-128 | true exactly for the live run, an available network and the current revision |
| `HealthMonitor.CheckLoop.NextFree` | core/mobile/android_network_health.go:156-164 | the index of the first queued provider that no worker holds |
| `HealthMonitor.FirstFreeIsFirst` | core/mobile/android_network_health.go:159-164 | every provider before that index is held, the one at it is not |
| `HealthMonitor.CheckLoop.OnDispatch` | core/mobile/android_network_health.go:168-170 | the provider leaves the queue and enters the in-flight map |
| `HealthMonitor.CheckLoop.OnSnapshot` | core/mobile/android_network_health.go:173-185 | an unchanged revision changes nothing; otherwise queue dropped and timer re-armed or disarmed |
| `HealthMonitor.CheckLoop.OnDue` | core/mobile/android_network_health.go:186-192 | the queue becomes the pending snapshot only if the revision is still current |
| `HealthInvariants.RunStep` | core/mobile/android_network_health.go:130-234 | every step of a loop or worker keeps the invariant of its run: wake-up, exclusivity, timing and conservation of jobs |
| `HealthInvariants.EventInv` | core/mobile/android_network_health.go:47-234 | every event of the system keeps the invariant of all runs |
| `HealthInvariants.ReachableInv` | core/mobile/android_network_health.go:47-234 | every reachable state satisfies the invariant |
| `HealthVerdicts.EventAccounts` | core/mobile/android_network_health.go:197-234 | every event keeps the account of failed first checks against retries: a worker that owes a retry owes it to one failed verdict found while its job was current, and only such a verdict makes it owe one |
| `HealthVerdicts.RetriesFollowFailures` | core/mobile/android_network_health.go:218-233 | in every reachable state, the retries of a job are at most the failed verdicts on it found while it was current, which are at most its first checks |
| `HealthSafety.MonitorFollowsItsCallers` | core/mobile/android_network_health.go:47-116 | after any calls in any order, the monitor has the providers set last, its live run is the one started last unless it was stopped since, and the stop channel of every other run is closed |
| `HealthSafety.NoLostRecovery` | core/mobile/android_network_health.go:109-128 | in every reachable state the live loop has the current snapshot, or a token waits for it, or it is between token and snapshot |
| `HealthSafety.ProvidersAreExclusive` | core/mobile/android_network_health.go:136-172 | in every reachable state no two workers of a run hold one provider, and the in-flight map of the live loop is exactly what they hold |
| `HealthSafety.RevisionNamesOneSnapshot` | core/mobile/android_network_health.go:47-58 | over every continuation, the same revision shows the same availability and providers, to callers and loops alike |
| `HealthSafety.ChecksAreTimely` | core/mobile/android_network_health.go:139-153 | every check starts at least 2 s after its run picked the revision up, every retry at least 1.5 s after the first check returned; an armed deadline belongs to the revision picked up last |
| `HealthSafety.EquivalentCallbackIsIgnored` | core/mobile/android_network_health.go:51-53 | a callback that means the same network changes nothing at all, so it moves no deadline |
| `HealthSafety.AvailabilityIsNeverStale` | core/mobile/android_network_health.go:47-58 | after any calls in any order, the availability is that of the network reported last |
| `HealthSafety.ChecksAreBounded` | core/mobile/android_network_health.go:173-234 | over all runs ever started, a provider is checked for a revision at most once per occurrence in its snapshot, and retried at most once per check |
| `HealthSafety.RetirementConserved` | core/mobile/android_network_health.go:197-234 | after retirement, launches of a worker plus its being past the guard stay constant |
| `HealthSafety.RetirementBound` | core/mobile/android_network_health.go:81-107 | after a run is stopped or replaced, or a revision superseded, each worker enters at most one more check for it, and only if it was past the guard; four in all |
| `HealthSafety.SupersededRevisionBound` | core/mobile/android_network_health.go:197-234 | the same bound of four, counted over all runs, for a superseded revision |
| `HealthSafety.WorkersAskTheMonitor` | core/mobile/android_network_health.go:197-234 | a check or a retry is begun exactly if the run is the live one, the network is available and the revision is the one published last |
| `HealthSafety.TimersAskTheMonitor` | core/mobile/android_network_health.go:186-192 | a timer that fired fills the queue with the pending providers exactly under the same condition, and otherwise leaves the queue alone |
| `HealthSafety.CurrentIsTheGuard` | core/mobile/android_network_health.go:124-128 | `current` is that condition |
| `HealthConvergence.QuietStepsAreBounded` | core/mobile/android_network_health.go:130-234 | with no caller interfering, the steps to come are bounded by a number computed from the state |
| `HealthConvergence.Progress` | core/mobile/android_network_health.go:130-234 | in every unsettled state some step is possible, at the latest after waiting: no deadlock |
| `HealthConvergence.QuietPeriodConverges` | core/mobile/android_network_health.go:130-234 | from every reachable state with a live run and an available network, a quiet period that leaves nothing to do ends with an empty queue, idle workers and every provider checked once per occurrence, its verdict taken as often, and retried exactly once for every check found failed while the revision was current |
| `HealthConvergence.SomeQuietPeriodSettles` | core/mobile/android_network_health.go:130-234 | and such an end can be reached from every state that satisfies the invariant |
| `VpnLifecycle.MainStep` | android/src/main/kotlin/com/cyenx/clashmi/clashmi_vpn_service/ClashMiVpnService.kt:45-93 | the main thread at most withdraws the wish and queues tasks at the end; it never touches core, callback, descriptors or the other thread |
| `VpnLifecycle.LifeStep` | android/src/main/kotlin/com/cyenx/clashmi/clashmi_vpn_service/ClashMiVpnService.kt:101-260 | the lifecycle thread at most withdraws the wish; it queues no task and never touches the main thread or the shutdown |
| `VpnLifecycleSafety.StepKeeps` | android/src/main/kotlin/com/cyenx/clashmi/clashmi_vpn_service/ClashMiVpnService.kt:45-260 | every step of either thread keeps the invariant over wish, core, shown state, callback and queue |
| `VpnLifecycleSafety.FdsKeep` | android/src/main/kotlin/com/cyenx/clashmi/clashmi_vpn_service/ClashMiVpnService.kt:127-139 | every step, orderly or not, keeps each descriptor in one place: attached, detached, closed by Kotlin, or handed over |
| `VpnLifecycleSafety.DescriptorsEndOnce` | android/src/main/kotlin/com/cyenx/clashmi/clashmi_vpn_service/ClashMiVpnService.kt:498-516 | over every history, orderly or not, each descriptor is attached, or detached, or was closed once, or was handed over once, never two of them |
| `VpnLifecycleSafety.AtRestAgreesUnlessStranded` | android/src/main/kotlin/com/cyenx/clashmi/clashmi_vpn_service/ClashMiVpnService.kt:45-260 | at rest, wish, core, shown state and descriptors agree if and only if onDestroy did not leave a running core behind |
| `VpnLifecycleSafety.AtRestAgrees` | android/src/main/kotlin/com/cyenx/clashmi/clashmi_vpn_service/ClashMiVpnService.kt:45-260 | they agree after every orderly history in which onDestroy never arrives during a native start with further starts and no stop queued |
| `VpnLifecycleDestroy.DestroyIsSafeIffNotExposed` | android/src/main/kotlin/com/cyenx/clashmi/clashmi_vpn_service/ClashMiVpnService.kt:82-93 | from every state of an orderly history: all continuations of onDestroy that come to rest agree if and only if that condition did not hold when it arrived |
| `VpnLifecycleDestroy.ExposedCanStrand` | android/src/main/kotlin/com/cyenx/clashmi/clashmi_vpn_service/ClashMiVpnService.kt:85-91 | whenever the condition holds, some continuation ends at rest in disagreement |
| `VpnLifecycleFailures.DestroyCanStrandTheCore` | android/src/main/kotlin/com/cyenx/clashmi/clashmi_vpn_service/ClashMiVpnService.kt:82-93 | a concrete history: start, start, destroy, and the core keeps running with "disconnected" shown |
| `VpnLifecycleFailures.FailedPromotionLeavesCoreRunning` | android/src/main/kotlin/com/cyenx/clashmi/clashmi_vpn_service/ClashMiVpnService.kt:54-61 | a concrete history: a failed promotion leaves a running core unwanted and shown as disconnected |
| `VpnLifecycleFailures.LateStopShowsDisconnecting` | android/src/main/kotlin/com/cyenx/clashmi/clashmi_vpn_service/ClashMiVpnService.kt:178-193 | a concrete history: a stop request after onDestroy can leave "disconnecting" on show |
| `VpnLifecycleTasks.StartTaskEnds` | android/src/main/kotlin/com/cyenx/clashmi/clashmi_vpn_service/ClashMiVpnService.kt:101-176 | a whole start task by itself, with any of its foreign calls failing: in which of seven ways it ends, and its whole state there; a descriptor it obtained ends closed or handed over |
| `VpnLifecycleTasks.StopTaskEnds` | android/src/main/kotlin/com/cyenx/clashmi/clashmi_vpn_service/ClashMiVpnService.kt:195-240 | a whole stop task by itself: everything is torn down and shown so even if the native stop throws |
| `VpnLifecycleTasks.WithdrawnBeforeHandover` | android/src/main/kotlin/com/cyenx/clashmi/clashmi_vpn_service/ClashMiVpnService.kt:130-135 | a wish withdrawn before the handover closes the TUN and shows "disconnected" |
| `VpnLifecycleTasks.WithdrawnAfterStart` | android/src/main/kotlin/com/cyenx/clashmi/clashmi_vpn_service/ClashMiVpnService.kt:149-152 | a wish withdrawn during the native start ends the task with nothing else changed |
| `VpnLifecycleTasks.StartCommandEnds` | android/src/main/kotlin/com/cyenx/clashmi/clashmi_vpn_service/ClashMiVpnService.kt:46-62 | a start command by itself: queued, or withdrawn and shown as disconnected if the promotion fails or the executor is shut down |
| `VpnLifecycleTasks.StopCommandEnds` | android/src/main/kotlin/com/cyenx/clashmi/clashmi_vpn_service/ClashMiVpnService.kt:178-193 | a stop command by itself: the wish withdrawn, "disconnecting" shown unless disconnected, the task queued unless the executor is shut down |
| `VpnLifecycleTasks.DestroyEnds` | android/src/main/kotlin/com/cyenx/clashmi/clashmi_vpn_service/ClashMiVpnService.kt:82-93 | onDestroy by itself: a stop queued exactly if the core runs or anything but "disconnected" is shown |
| `CallbackBridge.Plugin.BeginStart` | android/src/main/kotlin/com/cyenx/clashmi/clashmi_vpn_service/ClashmiVpnRuntime.kt:32-39 | the slot is taken exactly if it was free; nothing else changes |
| `CallbackBridge.Plugin.CompleteStart` | android/src/main/kotlin/com/cyenx/clashmi/clashmi_vpn_service/ClashmiVpnRuntime.kt:41-47 | an occupied slot is emptied and its answer posted, otherwise nothing changes |
| `CallbackBridge.Plugin.ClearPendingStart` | android/src/main/kotlin/com/cyenx/clashmi/clashmi_vpn_service/ClashmiVpnRuntime.kt:49-56 | a waiting start is answered as cancelled |
| `CallbackBridge.Plugin.BeginStop` | android/src/main/kotlin/com/cyenx/clashmi/clashmi_vpn_service/ClashmiVpnRuntime.kt:58-65 | the slot is taken exactly if it was free; nothing else changes |
| `CallbackBridge.Plugin.CompleteStop` | android/src/main/kotlin/com/cyenx/clashmi/clashmi_vpn_service/ClashmiVpnRuntime.kt:67-73 | an occupied slot is emptied and its answer posted, otherwise nothing changes |
| `CallbackBridge.Plugin.Start` | android/src/main/kotlin/com/cyenx/clashmi/clashmi_vpn_service/ClashmiVpnServicePlugin.kt:149-182 | the whole new state of a start: refused, waiting with its timeout scheduled, asking for permission, or failed |
| `CallbackBridge.Plugin.StartVpnService` | android/src/main/kotlin/com/cyenx/clashmi/clashmi_vpn_service/ClashmiVpnServicePlugin.kt:184-197 | a start whose intent cannot be sent is answered with an error |
| `CallbackBridge.Plugin.Stop` | android/src/main/kotlin/com/cyenx/clashmi/clashmi_vpn_service/ClashmiVpnServicePlugin.kt:199-226 | the whole new state of a stop or restart |
| `CallbackBridge.Plugin.OnActivityResult` | android/src/main/kotlin/com/cyenx/clashmi/clashmi_vpn_service/ClashmiVpnServicePlugin.kt:131-147 | the whole new state after the user answered, or nothing if no permission was asked for |
| `CallbackBridge.Plugin.RunMessage` | android/src/main/kotlin/com/cyenx/clashmi/clashmi_vpn_service/ClashmiVpnServicePlugin.kt:200-208 | a posted answer reaches Flutter, or a finished stop of a restart turns into a start of the same call |
| `CallbackBridge.Plugin.RunStartTimeout` | android/src/main/kotlin/com/cyenx/clashmi/clashmi_vpn_service/ClashmiVpnServicePlugin.kt:162-167 | a start that still waits is answered with a timeout and a stop is sent; otherwise only the timer is gone |
| `CallbackBridge.FinishedStopsRestart` | android/src/main/kotlin/com/cyenx/clashmi/clashmi_vpn_service/ClashmiVpnServicePlugin.kt:200-208 | the oldest posted answer: a restart whose stop is done is not answered but takes the free start slot on a prepared plugin, with its intent sent or the user asked, or has an error posted if neither can be; it is refused with an error if the plugin is not prepared or the slot is taken; every other answer reaches its call as it was posted and nothing else changes |
| `CallbackBridge.StartsAreTaken` | android/src/main/kotlin/com/cyenx/clashmi/clashmi_vpn_service/ClashmiVpnServicePlugin.kt:149-197 | the same of a call to start |
| `CallbackBridge.StopsAreTaken` | android/src/main/kotlin/com/cyenx/clashmi/clashmi_vpn_service/ClashmiVpnServicePlugin.kt:199-226 | a call to stop or restart waits with its own timeout and an intent sent, has an error posted if the intent cannot be sent, and is refused with an error if another one waits |
| `CallbackBridge.PermissionDecides` | android/src/main/kotlin/com/cyenx/clashmi/clashmi_vpn_service/ClashmiVpnServicePlugin.kt:131-147 | the user can answer once: the intent goes out, or the waiting start has an error posted |
| `CallbackBridge.IntentsFollowCalls` | android/src/main/kotlin/com/cyenx/clashmi/clashmi_vpn_service/ClashmiVpnServicePlugin.kt:149-240 | over every event, a start intent goes out exactly for a call that takes the start slot with no permission needed or when the user agrees, a stop intent exactly for a call that takes the stop slot or a start that timed out |
| `CallbackBridge.StepConserves` | android/src/main/kotlin/com/cyenx/clashmi/clashmi_vpn_service/ClashmiVpnServicePlugin.kt:131-226 | every event moves a Result between places and drops or copies none; a call adds its own |
| `CallbackBridge.EveryResultIsInOnePlace` | android/src/main/kotlin/com/cyenx/clashmi/clashmi_vpn_service/ClashmiVpnServicePlugin.kt:131-226 | over every history, each Result of a call is answered once, or in exactly one slot, or in the handler queue once |
| `CallbackBridge.WaitingIsBounded` | android/src/main/kotlin/com/cyenx/clashmi/clashmi_vpn_service/ClashmiVpnServicePlugin.kt:161-167 | over every history, an occupied slot has a timeout scheduled no later than its registration plus its timeout |
| `CallbackTimeouts.StartGetsItsTimeIff` | android/src/main/kotlin/com/cyenx/clashmi/clashmi_vpn_service/ClashmiVpnServicePlugin.kt:161-167 | over all continuations: a waiting start can be timed out before its own time if and only if its time is not up and a timeout left over from an earlier start is due before it |
| `CallbackTimeouts.StopGetsItsTimeIff` | android/src/main/kotlin/com/cyenx/clashmi/clashmi_vpn_service/ClashmiVpnServicePlugin.kt:214-219 | the same of a waiting stop or restart |
| `CallbackTimeouts.LaterStartCutShort` | android/src/main/kotlin/com/cyenx/clashmi/clashmi_vpn_service/ClashmiVpnServicePlugin.kt:161-167 | a concrete history: a start is timed out, and the service stopped, after half of its 60 seconds |
| `ServiceCallsSafety.EventCovers` | android/src/main/kotlin/com/cyenx/clashmi/clashmi_vpn_service/ClashmiVpnServicePlugin.kt:131-226 | plugin and service together: no step of the plugin or of either service thread loses sight of a waiting call |
| `ServiceCallsSafety.NobodyWaitsAtRest` | android/src/main/kotlin/com/cyenx/clashmi/clashmi_vpn_service/ClashMiVpnService.kt:45-260 | after any history, with failures, revocation, destruction and timeouts or without: at rest no stop waits, a start waits only while the user is asked for permission, and otherwise every call has been answered exactly once |
| `ServiceCallsSafety.CommandsReachTheService` | android/src/main/kotlin/com/cyenx/clashmi/clashmi_vpn_service/ClashMiVpnService.kt:45-99 | with the main thread idle, every intent sent can arrive, and revocation and destruction can come: the wish is set or withdrawn at once, and all but a start cancel a start that waits |
| `ServiceCallsSettle.UndisturbedStepsAreBounded` | android/src/main/kotlin/com/cyenx/clashmi/clashmi_vpn_service/ClashMiVpnService.kt:45-260 | left alone, plugin and service take a number of steps bounded in advance |
| `ServiceCallsSettle.SomeStepUntilRest` | android/src/main/kotlin/com/cyenx/clashmi/clashmi_vpn_service/ClashMiVpnService.kt:45-260 | as long as anything is left to do, some step can do it |
| `ServiceCallsSettle.EveryCallIsAnswered` | android/src/main/kotlin/com/cyenx/clashmi/clashmi_vpn_service/ClashmiVpnServicePlugin.kt:149-226 | after any history, if nobody calls and nothing times out, the steps end, and then every call has been answered exactly once or the user is still being asked: no call depends on its timeout |
| `ServiceCallsTruth.EventTrue` | android/src/main/kotlin/com/cyenx/clashmi/clashmi_vpn_service/ClashMiVpnService.kt:101-240 | every step keeps: what the lifecycle thread is about to answer to a start is "done" exactly if the core runs, to a stop "done" exactly if its native stop did not throw, with the core down; what the main thread answers is an error, and a stop only after onDestroy |
| `ServiceCallsTruth.EveryAnswerIsTrue` | android/src/main/kotlin/com/cyenx/clashmi/clashmi_vpn_service/ClashMiVpnService.kt:101-240 | after any history, the next answer posted says "done" exactly if the lifecycle thread gives it with the core running, for a start, or with the core down and no native stop thrown since stopCore began, for a stop; "timeout" exactly if a timer gives it; an error in all other cases: permission refused, intent not sent, promotion failed, task rejected, native start thrown, stop in between |
| `ServiceCallsTruth.DoneMeansDone` | android/src/main/kotlin/com/cyenx/clashmi/clashmi_vpn_service/ClashmiVpnServicePlugin.kt:149-226 | over every history, Flutter is told "done" of a call if and only if it is so: for a start, that its wait was ended with the core running; for a stop, that its wait was ended with the core down after a native stop that did not throw; for a restart, both |
| `YamlMerge.MergeIsRevisionAndNews` | core/mobile/core.go:1087-1101 | the merge keeps every pair in its place with its final value and appends the new pairs in patch order; skipped keys are untouched |
| `YamlMerge.FindInMerged` | core/mobile/core.go:1087-1110 | the value of every key after the merge |
| `YamlPaths.MergedValue` | core/mobile/core.go:1094-1098 | a key on both sides: two mappings are merged under it, any other value of the patch takes the place of what was there |
| `YamlPaths.UnsharedValue` | core/mobile/core.go:1087-1101 | a key on one side only keeps its value |
| `YamlPaths.SteeringKeysStay` | core/mobile/core.go:1103-1110 | the six steering keys are never taken from a patch, all others are |
| `YamlPaths.LackedPathsKeepTheirValue` | core/mobile/core.go:1087-1101 | at any depth, a path that the patch does not mention keeps its value |
| `YamlPaths.LeavesOfThePatchAreFound` | core/mobile/core.go:1087-1101 | at any depth, a leaf of the patch is found at its path |
| `YamlPaths.NothingElseAppears` | core/mobile/core.go:1087-1101 | at any depth, what a path holds comes from one side or is the merge of both |
| `YamlMerge.FindAfterPut` | core/mobile/core.go:1141-1158 | looking up any key after `setNode`; keys stay unique |
| `YamlMerge.MergeKeepsWellFormed` | core/mobile/core.go:1087-1101 | merging trees with unique keys gives a tree with unique keys, at every depth |
| `YamlMerge.SelfMerge` | core/mobile/core.go:1087-1101 | merging a tree into itself changes nothing |
| `YamlMerge.MergeIsIdempotent` | core/mobile/core.go:1087-1101 | merging a patch twice is merging it once |
| `YamlNode.Node.FindValue` | core/mobile/core.go:1151-1158 | the child standing for the value of the first pair with the key, or null exactly if there is none |
| `YamlNode.Node.SetNode` | core/mobile/core.go:1141-1149 | in place, the node becomes the tree with the key set; it stays a tree without sharing |
| `YamlNode.Node.Clone` | core/mobile/core.go:1160-1173 | a copy of equal value made of fresh nodes only |
| `YamlNode.Node.MergeMapping` | core/mobile/core.go:1087-1101 | in place, the node becomes the pure merge of both trees, stays a tree, shares no node with the patch, and leaves the patch unchanged; it terminates |
| `YamlNode.ReachedOnce` | core/mobile/core.go:1087-1101 | in a valid node no node is reached along two paths |
| `YamlNode.NothingShared` | core/mobile/core.go:1160-1173 | disjoint node sets mean that no node is reached from both sides |
| `RuntimeOverlayNodes.EnsureMapping` | core/mobile/core.go:1112-1119 | the mapping under the key, made and set if there was none; the rest of the tree is as before |
| `RuntimeOverlayNodes.SetSequence` | core/mobile/core.go:1133-1139 | in place, the key set to a sequence of these texts |
| `RuntimeOverlayNodes.WriteTun` | core/mobile/core.go:653-667 | the writes to the tun section, in place, are the specified ones |
| `RuntimeOverlayNodes.Inject` | core/mobile/core.go:720-753 | the injection in place is the specified one; the reported hosts are those without a policy, also when there are no servers |
| `RuntimeOverlayNodes.HasDnsPolicy` | core/mobile/core.go:755-770 | true exactly if a scalar key of the policy covers the host |
| `RuntimeOverlayNodes.Build` | core/mobile/core.go:647-685 | the root becomes the overlay of the merged config, the hosts without a policy are reported, and no patch node is changed or reached from the root |
| `RuntimeOverlay.TunValues` | core/mobile/core.go:653-667 | every key of the tun section: forced, kept, or filled because it was absent |
| `RuntimeOverlay.DnsValues` | core/mobile/core.go:669-671 | every key of the dns section but the policy: the range forced, the rest kept |
| `RuntimeOverlay.Ipv6Exactly` | core/mobile/core.go:664-667 | the tun section gets an IPv6 address exactly if it has none and the config says ipv6: true |
| `RuntimeOverlay.PolicyValue` | core/mobile/core.go:720-753 | the policy: left alone if it is no mapping, nothing is missing or there are no servers, otherwise extended |
| `RuntimeOverlay.PolicyCovers` | core/mobile/core.go:755-770 | the policy covers a host exactly if one of its keys is a scalar that does |
| `RuntimeOverlay.MissingExactly` | core/mobile/core.go:726-734 | the hosts to be injected are those not covered, in order |
| `RuntimeOverlay.ReportedExactly` | core/mobile/core.go:720-741 | the hosts reported for a merged config: the control hosts not covered by its policy, all if there is none, none if it is no mapping |
| `RuntimeOverlay.UrlsExactly` | core/mobile/core.go:747-750 | an injected entry lists the URL of every server, in order |
| `RuntimeOverlay.OverlayValues` | core/mobile/core.go:647-685 | every top-level key of the result: only tun and dns change |
| `RuntimeOverlay.OverlayKeepsOrder` | core/mobile/core.go:1141-1149 | every top-level key node keeps its place |
| `RuntimeOverlay.EveryHostIsSpokenFor` | core/mobile/core.go:726-750 | after the injection each control host keeps a policy it had, or its own entry names exactly the current servers; all other entries keep their values |
| `RuntimeOverlay.PolicyOnlyGrows` | core/mobile/core.go:726-750 | the policy list keeps all entries in place and grows at its end only, if and only if no host without a policy is spelled as a key with other servers |
| `RuntimeOverlay.EntriesAreNeverAltered` | core/mobile/core.go:726-750 | so with scalar keys and domains that cover themselves no entry is ever altered or moved |
| `RuntimeOverlay.EntryCanBeAltered` | core/mobile/core.go:755-781 | an input at which one is: a host that no pattern covers, with an entry under its own name |
| `RuntimeOverlay.OverlayIsIdempotent` | core/mobile/core.go:647-685 | for the same descriptor and servers, overlaying twice is overlaying once |
| `RuntimeOverlay.MergeKeepsWhole` | core/mobile/core.go:1087-1101 | every merged config meets what the overlay needs |
| `DnsPolicy.Replace` | core/mobile/core.go:388-421 | the loops compute the specified replacement |
| `DnsPolicy.ReplacedInPlace` | core/mobile/core.go:396-420 | a replacement with servers leaves every policy in its place with its name and appends what is missing |
| `DnsPolicy.AddedExactly` | core/mobile/core.go:413-419 | appended is a policy under its lower-case name for each host that no policy names, in the order of the hosts |
| `DnsPolicy.ReplaceKeepsTheRest` | core/mobile/core.go:396-408 | policies with a matcher or of other domains keep value and order |
| `DnsPolicy.ReplaceRenewsEveryHost` | core/mobile/core.go:388-421 | after a replacement every host has only entries with exactly the new servers, at least one if there are servers, none otherwise |
| `DnsPolicy.ReplaceAgainForgets` | core/mobile/core.go:388-421 | a replacement forgets an earlier one with servers, also when hosts were added in between |
| `DnsPolicy.SpellWithoutServers` | core/mobile/core.go:403-412 | a replacement without servers in between, perhaps followed by further hosts, changes nothing if and only if the entries of its hosts stood at the end already in host order and spelling |
| `DnsPolicy.SpellCanReorder` | core/mobile/core.go:403-412 | an input at which it changes the order |
| `DnsPolicyHistory.DnsPolicyCache.FilterHosts` | core/mobile/core.go:423-436 | the hosts that no current policy covers, in order |
| `DnsPolicyHistory.UncoveredExactly` | core/mobile/core.go:423-436 | kept are exactly the hosts that no policy matches or covers with a nonempty domain, in their order |
| `DnsPolicyHistory.DnsPolicyCache.PoliciesCoverHost` | core/mobile/core.go:438-448 | true exactly if some policy matches or covers the host |
| `DnsPolicyHistory.DnsPolicyCache.MergeHosts` | core/mobile/core.go:311-329 | the existing hosts followed by each new one once, compared without case |
| `DnsPolicyHistory.MergedHostsAreTracked` | core/mobile/core.go:311-329 | the merged hosts track exactly what either list tracks, nothing twice that was there |
| `DnsPolicyHistory.MergedHostsInOrder` | core/mobile/core.go:311-329 | the tracked hosts stay in front, followed by some of the incoming ones in their order |
| `DnsPolicyHistory.DnsPolicyCache.SyncApplied` | core/mobile/core.go:338-372 | the whole new cache after an applied config; unchanged for one without DNS or general section |
| `DnsPolicyHistory.SyncTracksWhatIsLeft` | core/mobile/core.go:349-367 | after a sync every control host is tracked or one that a policy of the config is about, never both |
| `DnsPolicyHistory.SyncServesWhatIsLeft` | core/mobile/core.go:349-367 | with servers the tracked hosts have exactly these, and all other policies are those of the config |
| `DnsPolicyHistory.DnsPolicyCache.MergeStartupState` | core/mobile/core.go:300-309 | the whole new cache after a startup |
| `DnsPolicyHistory.DnsPolicyCache.RefreshPolicy` | core/mobile/core.go:263-290 | the whole new cache after a refresh, and exactly when it returns an error |
| `DnsPolicyHistory.DnsPolicyCache.Clear` | core/mobile/core.go:242-261 | the cache is emptied if the core was running |
| `DnsPolicyHistory.ShutdownForgetsEverything` | core/mobile/core.go:242-261 | after the shutdown of a running core the cache is empty and stays so until a config or a startup comes |
| `DnsPolicyHistory.OnlyARunningCoreIsRefreshed` | core/mobile/core.go:263-267 | while no core runs, refreshes and shutdowns change nothing |
| `DnsPolicyHistory.RefreshForgetsHistoryIff` | core/mobile/core.go:263-309 | after any startups and refreshes since an applied config, a refresh with servers gives what one replacement in that config gives, if and only if no refresh took policies away in between, or the entries of the hosts it last did that for stood at the end of that config in host order and spelling |
| `DnsPolicyHistory.EmptyRefreshForgetsHistory` | core/mobile/core.go:263-309 | a refresh without servers never depends on the history |
| `DnsPolicyHistory.RefreshForgetsHistory` | core/mobile/core.go:263-290 | the consequence for histories in which servers were always there, with no condition on the hosts |
| `DnsPolicyHistory.TheRestNeverChanges` | core/mobile/core.go:263-309 | after any history, also without servers, all policies that are not tracked are those of the applied config, in order |
| `LogRotation.LogDirectory.RemoveExpiredBackups` | android/src/main/kotlin/com/cyenx/clashmi/clashmi_vpn_service/RotatingLogWriter.kt:63-74 | exactly the files whose suffix reads as a number that no longer fits are deleted, plain backups or not, in any listing order |
| `LogRotation.LogDirectory.Rotate` | android/src/main/kotlin/com/cyenx/clashmi/clashmi_vpn_service/RotatingLogWriter.kt:42-61 | each retained generation is found one number higher with its content; none is overwritten early |
| `LogRotation.LogDirectory.Append` | android/src/main/kotlin/com/cyenx/clashmi/clashmi_vpn_service/RotatingLogWriter.kt:18-40 | refused exactly by the three checks, otherwise the directory holds the specified generations; the result says whether it rotated |
| `LogRotation.AppendAll` | android/src/main/kotlin/com/cyenx/clashmi/clashmi_vpn_service/RotatingLogWriter.kt:18-40 | any number of appends to a directory without logs leave the generations that the two results below are about |
| `LogRotation.DiskHoldsTheNewest` | android/src/main/kotlin/com/cyenx/clashmi/clashmi_vpn_service/RotatingLogWriter.kt:18-74 | whatever limits each append brings, the files from oldest to active are the end of everything appended, cut between two entries |
| `LogRotation.RetentionIsBounded` | android/src/main/kotlin/com/cyenx/clashmi/clashmi_vpn_service/RotatingLogWriter.kt:31-61 | with fixed limits: at most the configured number and size of files, and once anything was dropped, more than half the number of files, rounded down, times the size is still there |

## Left out

- The wrap-around of the uint64 revision counter: revisions are natural numbers.
- Foreign code: Mihomo, Tailscale, Android and Flutter calls, broadcasts, notifications, socket protection and all logging.
- Text handling: YAML and JSON parsing and printing, URLs, IP addresses and domain tries are parameters; letters are lowered for A to Z only.
- Sorting is modelled by its result (an insertion sort on code points), not by the library's algorithm.
- Dispatching a job and marking its provider in flight are one step: only the loop reads the map, and the worker's first guard is a step of its own.
- The verdict on a finished check and the guard before it are one step of a worker.
- `HealthSystem.Apply`: callers of the monitor are atomic, as its mutex makes them.
- The VPN service is a step system and not a class, because two threads interleave between its field accesses; foreign calls without an effect on the modelled fields are not steps.
- Only one service instance is modelled; a new instance after `onDestroy` sharing the process-wide state is not.
- That Go closes a handed-over descriptor exactly once: only Kotlin's side is claimed (core.go:163-168).
- The messages inside an error answer, and whether it is marked as a close error.
- A permission dialog may be answered for a later call than the one that opened it; an answer that never comes leaves that start to its timeout.
- Reading the server list before taking the lock during a config reload (core.go:335): a sync carries its own servers and is one event.
- `lastGeneralIPv6`, cloning of DNS configs, and applying them to the running resolver.
- Finding the control hosts in proxies and providers: the overlay takes them as a function of those two sections, and the heap methods take the result.
- YAML aliases, styles, comments and anchors; tags are kept but not interpreted.
- Duplicate keys: the merge is modelled for them too, but its description and idempotence need unique keys.
- Merging two patches first: that is a different result when the first replaces a mapping by a scalar and the second puts one back.
- File system errors during a rotation, and log files that exist before the first append.
- Log filtering and redaction, the quick settings tile, prepared configs, Dart classes, proxy URL building, iOS and the example app: easy members or user interface.
