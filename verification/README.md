# Antigravity quota guard: a verified model

The guard keeps one circuit breaker per credential and model group, feeds it
with quota probes and usage records, and lets the scheduler pick only
credentials whose breaker allows it. Around it sit a state file written while
requests keep arriving, a learner of burn rates, a planner that turns quota
evidence into host priorities, and a writer that applies those priorities to a
host store others may change. This project models those parts and proves what
they promise over every run, every interleaving or every input.

| file | models |
|---|---|
| `GuardTypes.dfy`, `Breaker.dfy` | one breaker: its transitions, its invariant, the meaning of the generic 429 threshold |
| `EngineSpec.dfy`, `Engine.dfy` | the engine: its operations as functions of the state, and a class whose methods update the state exactly so |
| `EngineRuns.dfy` | runs over all operations, the invariant of every reachable state |
| `Transitions.dfy`, `Cooldowns.dfy` | which step takes a breaker to which state, and how long each observation keeps a credential out |
| `Leases.dfy`, `HardCooldowns.dfy`, `Availability.dfy`, `GroupIsolation.dfy`, `RosterFence.dfy` | theorems over runs |
| `Picks.dfy`, `Answers.dfy` | what a pick reports, and whom it hands out |
| `StateFile.dfy`, `Storage.dfy` | which documents load, that what is saved loads back, and that every step keeps it so |
| `AfterAuth.dfy` | the check after a pick, and that it agrees with the pick |
| `Persistence.dfy`, `DirtyCounter.dfy` | savers, mutators, configuration changes and crashes as an interleaved step system, and its invariant |
| `Durability.dfy`, `Generations.dfy` | what is on disk over any such run, and what each generation of the engine starts from and becomes |
| `Registrations.dfy`, `MutexNeeded.dfy` | the registration that skips the flush, and why saves need a mutex |
| `QuotaWindows.dfy` | from quota buckets to a breaker |
| `Classification.dfy`, `Enrichment.dfy` | which probes of a round may drive changes, and the learned rates filled in before planning |
| `ProbeRound.dfy` | a whole probe round, from the first roster to the evidence applied |
| `Sorting.dfy`, `Tiers.dfy`, `Planner.dfy`, `Urgency.dfy`, `Plans.dfy`, `RankingOrder.dfy` | ranking, equal-priority tiers, what quota evidence means for a plan, and whole plans |
| `HostTransition.dfy`, `PlanExecution.dfy` | one change, and a round of changes, against a store that fails and changes; from a plan's changes to the host |
| `Estimator.dfy` | the sample window as a view of an unbounded log, and the learned rate |

Times are whole nanoseconds with 0 for the zero time; the wall clock is a
parameter of each operation. Fractions, rates and urgencies are exact reals.
Where the source updates objects the model has a class whose methods are proved
equal to a function of the old state (`EngineClass`, `QuotaStore`, `Host`,
`Disk`) or works in place on an array (`Planner`); the theorems are about those
functions.

Results that needed a condition:

- Urgencies fall along the planner's ranking exactly when no two credentials
  are placed against their urgencies (`Plans.RankingFallsWhen`); urgencies that
  are equal or more than 1e-9 apart always satisfy this, and
  `Plans.HairsBreadthInverts` gives quota evidence for two that do not.
- The order of quota buckets is irrelevant exactly when a five-hour or weekly
  bucket is among them or all are alike (`QuotaWindows.OrderMattersWhen`);
  `QuotaWindows.UnrecognisedBucketsDependOnOrder` shows the other case.
- A conflict-free host change on an undisturbed store is reported as committed
  exactly when the intent's two identities agree (`HostTransition.QuietChangeCommits`).
- A credential is both fresh and historical exactly when a usable probe of
  another round follows its last qualifying one (`Classification.FreshAndHistoricalWhen`).
- Every run may reload under other configurations; the invariant and the run
  theorems hold for all of them. Only the bound of the failure count by the
  threshold and the length of a granted lease are the configuration's own:
  they survive reloads that keep the lease length and do not lower the
  threshold (`EngineRuns.RunKeepsTuned`), and `EngineRuns.ReloadUntunes` says
  exactly which entries another reload carries outside them.
- With those bounds two tests in the handling of a generic 429 never decide
  anything (`Breaker.DeadTests`); `Breaker.CountDecidesWhen` says exactly when
  one of them does for an entry loaded under another threshold.
- A repeated registration swaps engines without the flush. Whatever follows
  keeps every clean engine stored exactly when the file, and any snapshot on
  its way to it, already is what the engine holds
  (`Registrations.SkipHarmlessWhen`); both ways of missing that are reached
  from a first start (`UnsavedIsReachable`, `RunningSaverIsReachable`). It
  starts from the mutations that are on disk and from no later one
  (`Registrations.RegistrationFinds`).
- A crash costs at most the newest mutations, and none if the engine was clean
  (`Durability.CrashLosesOnlyASuffix`).
- A save alone does not keep file and engine in step: without the mutex around
  it two overlapping saves leave a stale file (`MutexNeeded.WithoutTheMutexSavesGoStale`).

## Model

| member | source | states |
|---|---|---|
| Breaker.DeadTests | internal/guard/observe.go:203-234 | in a reachable entry an opening from a non-cooling state uses the initial cooldown and a reopening the maximal one; the count-above-threshold and before-last-failure tests change nothing |
| Breaker.CountDecidesWhen | internal/guard/observe.go:219-228 | for an entry of any origin, exactly when the count-above-threshold test changes the outcome |
| Breaker.CounterIsChain | internal/guard/observe.go:203-211 | while closed, the failure counter is the length of the longest chain of failures without a success and within the window |
| Breaker.OpensExactlyAtThreshold | internal/guard/observe.go:128-150 | over any accepted generic 429s and successes a closed breaker opens at the first failure completing such a chain of threshold length, and not before |
| Breaker.UsageKeepsSound | internal/guard/observe.go:99-187 | every usage observation keeps the invariant of an entry and its identity |
| Breaker.EvidenceKeepsSound | internal/guard/observe.go:52-68 | accepted evidence keeps the invariant of an entry and its identity |
| EngineClass.Engine.ApplyQuotaEvidence | internal/guard/observe.go:17-69 | rejects malformed evidence, ignores foreign or stale evidence, else moves the whole engine as specified; changed exactly if the state differs |
| EngineClass.Engine.ObserveUsage | internal/guard/observe.go:99-187 | the whole engine after a usage record, and what the caller is told |
| EngineClass.Engine.AbsorbUsage | internal/guard/observe.go:128-175 | the entry after a usage record, fences and all |
| EngineClass.Engine.ObserveGeneric429 | internal/guard/observe.go:203-234 | the entry after a generic 429 |
| EngineClass.Engine.ObserveExplicit429 | internal/guard/observe.go:153-171 | the entry after an explicit exhaustion: never an earlier recovery while hard, quota_zero keeps its reason |
| EngineRuns.LookupResolves | internal/guard/observe.go:190-201 | a credential named by index, id or both resolves to the one breaker of the group that carries every name given |
| EngineClass.Engine.Assess | internal/guard/pick.go:71-133 | the candidate loop's eligible list and counts equal the survey of every candidate's verdict |
| EngineClass.Engine.AssessOne | internal/guard/pick.go:72-132 | one candidate is counted by its verdict |
| EngineClass.Engine.Pick | internal/guard/pick.go:18-171 | result and new state of a pick in both modes: candidate survey, selection, cursor, lease, error code and wait |
| EngineClass.Engine.PickKnown | internal/guard/pick.go:71-171 | the same for a request that reaches the selection loop |
| EngineClass.Engine.Take | internal/guard/pick.go:154-170 | the cursor turns, and a selection that needs one takes its lease |
| EngineClass.Engine.PickUnknownModel | internal/guard/pick.go:174-208 | the answer when the model belongs to no group |
| EngineClass.Engine.ManualHalfOpen | internal/guard/pick.go:259-292 | refusals in the source's order, else a pending probe |
| EngineClass.Engine.ReplaceRoster | internal/guard/engine.go:126-176 | a rejected roster changes nothing; an accepted one rebuilds entries and id table and is dirty only if entries differ |
| EngineClass.Engine.RegisterIdentity | internal/guard/engine.go:180-217 | the whole state after registering one credential |
| EngineClass.Engine.RegisterIn | internal/guard/engine.go:192-206 | one group of a registration, and whether it changed anything |
| EngineClass.Engine.CheckRoster | internal/guard/engine.go:126-145 | every identity is checked before anything is touched |
| EngineClass.Engine.Snapshot | internal/guard/status.go:149-183 | lists every entry once, with each group's earliest recovery |
| EngineClass.Engine.Save | internal/guard/store.go:240-352 | a save that reports success left a valid document of this state and a clean engine; a failed one keeps the dirty count |
| EngineClass.Engine.Load | internal/guard/store.go:106-131 | a missing file is a first start, an invalid one changes nothing, a valid one replaces entries and ids |
| EngineClass.NewEngine | internal/guard/engine.go:32-43 | an engine exists exactly for a valid configuration with its defaults |
| EngineClass.LoadEngine | internal/guard/store.go:22-34 | a new engine with what the file holds, or none |
| EngineClass.Engine.Encode | internal/guard/store.go:274-286 | the stored form drops the lease holders only |
| EngineRuns.ReachableIsSound | internal/guard/observe.go:236-262 | every state reachable from a new engine, reloads under other configurations included, keeps the breaker invariant and a one-to-one id table over twin entries |
| EngineRuns.RosterKeepsSound | internal/guard/engine.go:126-176 | a roster step keeps that invariant, whatever the roster |
| EngineRuns.RegisterKeepsSound | internal/guard/engine.go:180-217 | so does registering one credential |
| EngineRuns.PickKeepsSound | internal/guard/pick.go:163-170 | so does a pick |
| EngineRuns.ManualKeepsSound | internal/guard/pick.go:274-291 | so does a manual half-open |
| EngineRuns.RunKeepsTuned | internal/guard/pick.go:163-170 | while reloads keep the lease length and do not lower the threshold, counts stay below the threshold and leases have the configured length |
| EngineRuns.ReloadUntunes | internal/guard/store.go:22-31 | the entries a reload carries outside the new threshold and lease length, exactly |
| EngineRuns.ChangesAreDirty | internal/guard/engine.go:268-275 | entries change only together with the dirty counter and the generation |
| Leases.LeaseStep | internal/guard/observe.go:121-165 | a step before a lease's end leaves it in place exactly when it is not an accepted 429, the holder's own success, deciding evidence or a change of identity |
| Leases.LeasePersists | internal/guard/pick.go:163-170 | over a run a granted lease stays until its time is up or a step ends it |
| Leases.NoTwoLiveLeases | internal/guard/pick.go:104-119 | with a clock that does not go back, a second grant on a breaker comes after the first lease's end or after a step that ended it |
| HardCooldowns.HardCooldownHolds | internal/guard/observe.go:153-171 | before its recovery time a hard breaker is never selectable, its recovery time never moves earlier, quota_zero keeps its reason, over any run of usage, picks, failed probes, and probes that find quota left over an explicit 429 |
| HardCooldowns.HardStaysHard | internal/guard/observe.go:213-218 | the same at every point of the run |
| Transitions.StateAfter | internal/guard/observe.go:121-187 | the state any step leaves any breaker in: which records and evidence open it, which close it, which picks and requests lend or reserve a lease, and that nothing else moves it |
| Transitions.OpenStep | internal/guard/observe.go:59-63 | an open breaker stays open unless lent, requested, replaced, or restored after an empty quota; other evidence leaves the whole cooldown as it is |
| Cooldowns.ExplicitHolds | internal/guard/observe.go:152-171 | an exhaustion keeps every candidate of the credential out until the reset it names, or for the maximal cooldown, never cutting a hard cooldown short, and lends the lease from then on |
| Cooldowns.GenericHolds | internal/guard/observe.go:203-234 | the same for a generic 429: initial cooldown when it completes the chain, maximal when cooling, or the later reset it names |
| Cooldowns.EmptyQuotaHolds | internal/guard/observe.go:53-60 | evidence of an empty quota keeps every candidate of the credential out until the quota resets |
| Cooldowns.EvidenceServes | internal/guard/observe.go:53-63 | evidence is recorded with its time and serves a breaker that it leaves or makes closed as long as it is young, and no longer; a closed breaker keeps its chain of 429s |
| Cooldowns.SuccessServes | internal/guard/observe.go:138-146 | the lease holder's success closes the breaker, and its credential is served as long as the last quota evidence is young |
| Cooldowns.SuccessEndsChain | internal/guard/observe.go:147-150 | any other success ends the chain of a closed breaker and changes nothing else |
| Cooldowns.OtherUsageIsIgnored | internal/guard/observe.go:121-136 | records that are late, fenced off, about others or no 429 leave a breaker alone |
| Cooldowns.OtherEvidenceIsIgnored | internal/guard/observe.go:35-50 | so does evidence that is malformed, late or about another credential |
| Cooldowns.LeaseHoldsBack | internal/guard/pick.go:163-170 | a lease is held under the request's id for the configured time, keeps everyone else out until it ends and changes nothing else |
| Cooldowns.RequestIsGranted | internal/guard/pick.go:274-291 | an operator's half-open is granted exactly for a breaker that is open or whose lease has run out, changes only that breaker and makes it available at once |
| Cooldowns.RequestIsRefused | internal/guard/pick.go:259-284 | each refusal changes nothing and says why |
| Cooldowns.RequestIsLent | internal/guard/pick.go:257-291 | the next enforcing pick that serves the credential takes the lease |
| Availability.ClosedStep | internal/guard/observe.go:121-180 | a step leaves a closed breaker closed exactly when it is not an accepted exhaustion, the last of a full chain of 429s, deciding evidence of an empty quota or a change of identity |
| Availability.ServedUntilStale | internal/guard/pick.go:96-103 | over any run without such a step the breaker stays closed, its evidence never gets older, and its credential is available without a lease exactly as long as that is fresh |
| Availability.CoolingEndsInTime | internal/guard/pick.go:104-119 | in a reachable state a cooling breaker holds its credential back exactly until a time of its own, and lends it a lease from then on |
| GroupIsolation.GroupsAreIsolated | internal/guard/pick.go:96-133 | a group's entries and cursor after any run are those of the run without the other group's steps |
| GroupIsolation.GroupsCommute | internal/guard/observe.go:121-187 | steps on different groups commute on all entries and cursors |
| GroupIsolation.ObservingLeavesNoTrace | internal/guard/pick.go:154-162 | observing picks can be erased from any run |
| GroupIsolation.ObservingProjects | internal/guard/pick.go:134-162 | an observing pick reports the selection, error and counts of the enforcing one |
| Picks.EveryCandidateCounted | internal/guard/pick.go:71-133 | eligible plus excluded is the number of candidates, and counted reasons are real |
| Picks.CountsHaveReasons | internal/guard/pick.go:71-131 | each count is positive exactly when some candidate is judged that way |
| Picks.AnswersMeanWhatTheySay | internal/guard/pick.go:133-152 | exactly when a pick selects and when it answers each of its four error codes, in terms of how the candidates are judged |
| Picks.EarliestIsLeast | internal/guard/pick.go:237-245 | the earliest boundary is the least at which a cooling candidate stops cooling |
| Picks.RetryAfterIsExact | internal/guard/pick.go:247-255 | a positive wait is the least whole number of seconds (section 10.2.3 of RFC 9110) to the earliest cooling boundary, and the same pick after it selects a candidate |
| Picks.AllCoolingHasWait | internal/guard/pick.go:134-152 | in a reachable state an all-cooling answer carries a positive wait |
| Answers.UnguardedAreServedWhen | internal/guard/pick.go:72-130 | candidates of other providers are always served, unknown credentials only under a fail-open policy, uninitialized ones only with fresh evidence besides; each rejection has its own cause |
| Answers.AnswersInTurn | internal/guard/pick.go:154-162 | the answer names the credential of the candidate whose turn it is, as its own breaker knows it, or nobody; handled and excluded counts |
| Answers.LeaseGoesToTheAnswer | internal/guard/pick.go:163-170 | a lease is granted exactly when an enforcing pick serves a credential whose breaker is cooling, and the names answered resolve to that breaker |
| Answers.TurnsGoRound | internal/guard/pick.go:154-162 | while the same credentials may be served, the n-th turn answers the n-th name from where the cursor pointed, whatever is interleaved |
| Answers.RoundRobin | internal/guard/pick.go:154-162 | and as many turns as there are of them hand out each exactly as often as it is offered |
| Answers.UnknownModelServesForeign | internal/guard/pick.go:174-208 | for a model of no group no Antigravity credential is named and nothing changes; failing closed the first foreign candidate is served if there is one |
| Answers.OthersAreLeftAlone | internal/guard/pick.go:29-69 | a request that is not about Antigravity, or about a group not enforced, is neither handled nor answered and changes nothing |
| RosterFence.AcceptedRosters | internal/guard/engine.go:126-145 | a roster is accepted exactly when no id or index is missing or repeated |
| RosterFence.ReplacedStartsFresh | internal/guard/engine.go:146-176 | a replaced credential is uninitialized in both groups, a kept one keeps its breaker |
| RosterFence.DroppedIsAbsent | internal/guard/engine.go:146-176 | a roster without a credential leaves no breaker of its identity |
| RosterFence.RosterInstalls | internal/guard/engine.go:126-176 | after an accepted roster there are exactly two breakers for each of its credentials, those it had under the same id and fingerprint or ones that know nothing; a rejected one changes nothing |
| RosterFence.RegistrationInstalls | internal/guard/engine.go:180-217 | a registration is refused exactly when a name is missing or the id belongs to another index; otherwise the same for its index, and every other keeps its own |
| RosterFence.DefaultFingerprintsDiffer | internal/guard/engine.go:93-124 | without fingerprints of their own, credentials are told apart by index, id and provider |
| RosterFence.IdentitiesStay | internal/guard/observe.go:17-69 | only roster steps change which credential a breaker belongs to |
| RosterFence.RosterReplay | internal/guard/engine.go:168-176 | replaying a roster changes and dirties nothing |
| RosterFence.EvidenceIsFenced | internal/guard/observe.go:35-50 | captured evidence alters at most its own breaker, and only for the identity it was captured for |
| RosterFence.InFlightEvidenceIsLost | internal/runtime/production_runner.go:52-105 | once a credential has left its index, its probes in flight have no effect over any run that does not bring it back |
| ProbeRound.ReadRoster | internal/runtime/official_guard.go:473-486 | the identities of the enabled Antigravity files, in order |
| ProbeRound.IdentitiesByIndex | internal/runtime/official_guard.go:508-517 | the identity captured for each index |
| ProbeRound.DisabledIndexes | internal/runtime/official_guard.go:519-530 | the indexes of the disabled Antigravity files |
| ProbeRound.ApplyItems | internal/runtime/official_guard.go:598-629 | each eligible item applied for its captured identity, the others counted as errors unless known to be disabled |
| ProbeRound.ApplyGuardEvidence | internal/runtime/official_guard.go:586-640 | the whole engine after all groups of a round, the errors, and whether anything changed |
| ProbeRound.CapturedIsListed | internal/runtime/official_guard.go:488-517 | what is captured for an index is an identity of that index from the roster just read |
| ProbeRound.RosterIsWhatFilesGive | internal/runtime/official_guard.go:473-517 | the roster lists exactly the identities that enabled Antigravity files give, and every listed index is captured |
| ProbeRound.ErrorsAreUnexplained | internal/runtime/official_guard.go:586-640 | a round is free of errors exactly when no probe failed and every item is of a captured or disabled credential |
| ProbeRound.ItemIsRecorded | internal/runtime/official_guard.go:598-629 | an item of a captured credential that still holds its index is evidence for its breaker and leaves its least share and its time there |
| ProbeRound.RoundIsFenced | internal/runtime/production_runner.go:52-105 | whatever happens during a round, its evidence alters only breakers that then belong to the credential captured before the probe |
| ProbeRound.RoundIsRun | internal/runtime/official_guard.go:597-629 | applied without interruption, a round is the run of its items as single steps |
| ProbeRound.InterleavedRoundIsFenced | internal/runtime/official_guard.go:590-629 | with any other steps between them, each item alters only a breaker that then belongs to the credential captured for its index |
| ProbeRound.DepartedIsOutOfReach | internal/runtime/production_runner.go:90-105 | once a captured credential has left its index, the round's items for it might as well not be there, wherever they fall in a run that does not bring it back |
| ProbeRound.NewcomersAreUntouched | internal/runtime/production_runner.go:90-105 | a credential the round did not capture leaves it uninitialized in both groups, or with the breaker it already had |
| StateFile.ValidateDocument | internal/guard/store.go:185-231 | accepts exactly the valid documents and builds their tables |
| StateFile.Admission | internal/guard/store.go:190-229 | the loop's tests decide exactly whether one more entry keeps the list valid |
| StateFile.SaveLoadRoundTrip | internal/guard/store.go:185-231 | what any reachable engine saves is accepted, and loads back under any configuration with only the lease holders and cursors forgotten |
| StateFile.SavedLoads | internal/guard/store.go:106-131 | the same from any tables that can be stored, those loaded from a foreign file included |
| StateFile.LoadedIsStorable | internal/guard/store.go:185-231 | whatever valid document is loaded, every listing of it is a valid document again |
| StateFile.LoadedResolves | internal/guard/store.go:185-231 | in an engine loaded from any valid document the names given resolve to the one breaker of the group that carries them |
| StateFile.LoadedIsProper | internal/guard/store.go:185-231 | every loaded breaker is complete, within its ranges and of one identity with its twin |
| Storage.StepKeepsStorable | internal/guard/engine.go:126-217 | every step keeps it so |
| StateFile.ValidLists | internal/guard/store.go:185-231 | a valid document lists the table it loads as, each entry once |
| AfterAuth.EvaluateGroup | internal/runtime/official_handlers.go:301-361 | the counting loop passes exactly when some trusted closed breaker or live lease exists, or the policy fails open on unknown state |
| AfterAuth.BlocksExactlyWhen | internal/runtime/official_handlers.go:301-361 | on any snapshot of a reachable state, when the group passes, when it is refused as uninitialized, and when as cooling with the least whole seconds to the first boundary |
| AfterAuth.PickIsHonoured | internal/runtime/official_handlers.go:301-361 | after a fail-closed enforcing pick of an Antigravity credential the check passes, and after a lease it passes until the lease ends |
| AfterAuth.LeaseIsHonoured | internal/runtime/official_handlers.go:301-361 | over any run after a grant and at any time before the lease's end the check passes, unless a step of the run ended the lease |
| Durability.RunKeepsInv | internal/runtime/official_guard.go:233-271 | every interleaving of mutators, savers, configuration changes, crashes and registrations that find everything on disk keeps the protocol's invariant |
| Persistence.ActionKeepsInv | internal/runtime/official_guard.go:371-396 | each single action keeps it |
| Durability.FirstInstall | internal/runtime/runtime.go:165-188 | the first registration, loading whatever its file holds, starts such a system |
| Durability.GenerationsAdvance | internal/runtime/official_guard.go:246-250 | the generation never goes back |
| Durability.CleanMeansSaved | internal/guard/store.go:240-352 | whenever the active engine is not dirty its state file loads, and holds its entries, lease holders aside |
| Durability.CrashLosesOnlyASuffix | internal/guard/store.go:274-352 | at any moment a new start would load the result of a prefix of the accepted mutations, all of them if the engine is clean, and a sound engine if the old one was sound |
| Durability.DurableStays | internal/guard/store.go:321-352 | what is once on disk stays there: within a generation that prefix never shrinks |
| Persistence.ListingKeeps | internal/guard/store.go:274-291 | any listing a save may encode is a valid document of the engine's entries |
| Durability.RetiredNeverWrites | internal/runtime/official_guard.go:371-396 | files change only in the rename of a saver of the active generation, at its own path; a replaced generation never writes |
| Durability.SwapLosesNothing | internal/runtime/runtime.go:742-781 | a change that keeps the state path starts from the result of every mutation accepted before it, entries, id table and all, up to roster reconciliation |
| Generations.SwapInstalls | internal/runtime/official_guard.go:67-110 | what a configuration change installs: the path and configuration asked for, and the entries read, reconciled with the roster to exactly its credentials |
| Generations.CrashRestarts | internal/runtime/official_guard.go:67-74 | the start after a crash holds what its file held, and nobody else is at work |
| Generations.EveryMutationCounts | internal/runtime/official_guard.go:233-271 | as long as its generation lasts the active engine is what the accepted mutations make of it, in order, whatever savers and changes do |
| Durability.LoadFindsEverything | internal/runtime/official_guard.go:67-74 | what a load of the active path finds once everything accepted is on disk |
| Durability.ActiveFileLoads | internal/runtime/official_guard.go:67-74 | at any moment of a run the active path can be loaded |
| Registrations.SkipHarmlessWhen | internal/runtime/runtime.go:177-186 | whatever follows a skipped flush keeps every clean engine stored exactly when the file and any running save already are what the engine holds |
| Registrations.SkipGoesStale | internal/runtime/runtime.go:177-186 | otherwise the running saver, or one more save before the swap, leaves a clean engine behind a file it does not match |
| Registrations.RegistrationFinds | internal/runtime/runtime.go:177-186 | a registration starts from exactly the mutations that are on disk |
| Registrations.UnsavedIsReachable | internal/runtime/runtime.go:177-186 | a run from a first start to a registration with an unsaved roster |
| Registrations.RunningSaverIsReachable | internal/runtime/runtime.go:177-186 | and to one whose file is current while a saver is about to rename another snapshot |
| Durability.NothingSlipsThrough | internal/runtime/runtime.go:191-217 | between flush and swap nothing is accepted and no entry changes |
| MutexNeeded.WithoutTheMutexSavesGoStale | internal/runtime/official_guard.go:375-383 | without the mutex, from any dirty engine, overlapping saves can leave a stale file behind a clean engine |
| QuotaWindows.FirstWindow | internal/provider/antigravity/parse.go:203-217 | the bucket of a length with the least left, the latest reset breaking ties |
| QuotaWindows.PickEffectiveWindow | internal/provider/antigravity/parse.go:179-201 | the window a group's headline figures come from |
| QuotaWindows.ParseGroup | internal/provider/antigravity/parse.go:89-117 | the group's probe result |
| QuotaWindows.ReadingIsWorst | internal/runtime/official_guard.go:642-679 | the guard's reading is zero exactly when some recognised bucket is empty, and then its reset is the latest of the empty ones |
| QuotaWindows.ReadingIsLeast | internal/runtime/official_guard.go:642-679 | the guard's reading is the least share left in any recognised bucket |
| QuotaWindows.ReadingWaitsForEmpty | internal/runtime/official_guard.go:660-679 | and waits for the reset stated, or a later one of an empty window |
| QuotaWindows.ProbeSpeaks | internal/provider/antigravity/parse.go:89-117 | each window speaks for its worst bucket, and the week makes the headline if it is empty or alone |
| QuotaWindows.EmptyBucketOpens | internal/guard/observe.go:52-68 | accepted evidence with an empty bucket still to reset holds the breaker open until the last of them resets; it opens nothing otherwise |
| QuotaWindows.OrderMattersWhen | internal/provider/antigravity/parse.go:179-201 | bucket order is irrelevant exactly when a window is recognised or all buckets are alike |
| QuotaWindows.UnrecognisedBucketsDependOnOrder | internal/provider/antigravity/parse.go:197-200 | two unrecognised buckets whose order decides whether the group reads as empty |
| Classification.Classify | internal/evidence/evidence.go:104-211 | the eligible evidence and all observations, loop by loop |
| Classification.NoteProbe | internal/evidence/evidence.go:136-188 | one probe is noted by its kind, and handed on exactly if it qualifies |
| Classification.RecallPast | internal/evidence/evidence.go:114-133 | valid stored observations open the list |
| Classification.PastFailures | internal/evidence/evidence.go:190-208 | stored failures close it, for credentials without a probe of their own |
| Classification.RemoveObservations | internal/evidence/evidence.go:288-297 | the filter that drops a credential's observations of one kind |
| Classification.HistoricalEvidence | internal/evidence/evidence.go:80-88 | the historical evidence handed to the planner |
| Classification.EligibleIsFilter | internal/evidence/evidence.go:173-180 | eligible is exactly the in-order filter of known, same-group, same-round, ready, complete probes |
| Classification.FreshIsEligible | internal/evidence/evidence.go:174-180 | the fresh observations carry the eligible evidence and nothing else |
| Classification.FreshAndHistoricalWhen | internal/evidence/evidence.go:156-180 | a credential is both fresh and historical exactly when a usable probe of another round follows its last qualifying one; never when all probes are of the round |
| Classification.ObservationsAre | internal/evidence/evidence.go:104-211 | every observation and what it stands for: each probe of a known credential by its kind, whole stored evidence, history only until a later probe drives the round, stored failures only of credentials without any probe |
| Enrichment.EnrichFresh | internal/runtime/probe_evidence.go:99-115 | both loops fill in the learned rates and change nothing else |
| Enrichment.OnlyRatesAreFilledIn | internal/runtime/probe_evidence.go:99-115 | only fresh evidence changes, and only in its rate, which is the one learned for its credential and group |
| Enrichment.EnrichedFreshIsEligible | internal/runtime/probe_evidence.go:103-113 | the fresh observations still carry exactly the eligible evidence, rates included |
| Enrichment.MarkKeepsRatesBounded | internal/state/store.go:422-480 | every recorded probe keeps all rates in the store within their bounds |
| Tiers.GreedyIsGrouping | internal/priority/planner.go:299-351 | members of one greedy tier differ pairwise by at most the tolerance |
| Tiers.TierWithinTolerance | internal/priority/planner.go:306-319 | members of a tier are within the tolerance of each other, not only of its anchor |
| Tiers.GreedyIsOptimal | internal/priority/planner.go:306-319 | any grouping within the tolerance needs a label of its own for each greedy anchor |
| Tiers.GreedyIsFewest | internal/priority/planner.go:299-351 | no grouping within the tolerance has fewer tiers |
| Planner.PlanPositive | internal/priority/planner.go:275-352 | in place: cooling items fall back, each group takes its tiers' priorities along its ranking, everything else stays |
| Planner.Separate | internal/priority/planner.go:278-297 | cooling healthy items fall back, the others are collected by group in order |
| Planner.AssignTiers | internal/priority/planner.go:299-324 | the anchored pass gives each ranked item the priority of its tier and leaves all others |
| Planner.RankingOfRanked | internal/priority/planner.go:300-303 | the ranking lists each member of the group exactly once |
| Planner.ByAuthIndex | internal/priority/planner.go:265-273 | the last evidence per auth index |
| Planner.PlanItems | internal/priority/planner.go:186-263 | one item per credential, fresh evidence before historical |
| Planner.MarkHistorical | internal/priority/planner.go:157-164 | only reasons drawn from historical evidence are marked |
| Planner.Changes | internal/priority/planner.go:380-395 | the in-order filter of items that need a change |
| Planner.PlanWithEvidence | internal/priority/planner.go:129-155 | items and changes of a whole plan |
| Plans.OptionsInRangeStay | internal/priority/planner.go:166-184 | options in range are used as given, start values otherwise take their defaults or are cut down |
| Urgency.MetricsMean | internal/priority/boost.go:20-36 | a credential is depleted, held back or boosted exactly as its shares, resets and burn rate say: boosted when what is left of the week outlasts the time to its reset |
| Urgency.UrgencyIsMonotone | internal/priority/urgency.go:44-61 | a credential with at least as much left in both windows, of which neither resets later, is at least as urgent |
| Urgency.UrgencyScale | internal/priority/urgency.go:44-61 | the scale of the four parts of urgency |
| Plans.LastForIsThere | internal/priority/planner.go:265-273 | the evidence found for an index is the last one given for it |
| Plans.RankingFallsWhen | internal/priority/comparator.go:17-34 | urgencies fall along the ranking, however the credentials are arranged, exactly when no two are swapped |
| Plans.HairsBreadthInverts | internal/priority/comparator.go:18-31 | quota evidence, 270 microseconds apart, for two credentials that rank against their urgencies |
| Plans.ApartIsAgreed | internal/priority/comparator.go:9-34 | urgencies equal or more than 1e-9 apart are never swapped |
| RankingOrder.RankingIsExact | internal/priority/comparator.go:9-34 | where nothing is merely close a ranking goes by urgency, then sooner five-hour reset, then lexicographically smaller auth index |
| RankingOrder.TextIsLexicographic | internal/priority/comparator.go:33 | the comparison of auth indexes is the lexicographic order |
| Plans.PrioritiesFollowUrgency | internal/priority/planner.go:299-351 | priorities stay between the minimum and the start value, never rise as urgency falls, are equal for equal urgencies, and are shared above the minimum only within the tolerance |
| Plans.PrioritiesLeaveNoGap | internal/priority/planner.go:304-323 | where a priority is given, so is every one above it up to the start value of the group |
| Plans.FewestPriorities | internal/priority/planner.go:304-323 | no sharing of priorities within the tolerance distinguishes fewer levels |
| Plans.PlanListsEveryone | internal/priority/planner.go:144-155 | the items are a permutation of the credentials, fresh first and by falling priority |
| RankingOrder.PlanIsInOrder | internal/priority/comparator.go:62-83 | fresh first, then falling priority, then enabled first, then by auth index |
| Plans.PlannedItem | internal/priority/planner.go:186-263 | an item is disabled, parked or ranked, for the reason it states, exactly as its last fresh or else historical evidence and its cooldown say, and stays as the host has it without either |
| Plans.ChangesNeedProbes | internal/priority/planner.go:380-418 | with any burn rates filled in, every change belongs to a credential with a qualifying probe, where the host is out of date, and goes to the target that probe and rate account for |
| Enrichment.RoundPlanIsAccounted | internal/runtime/probe_evidence.go:88-115 | the same for the learned rates of a store, which lie within their bounds |
| Plans.NothingFreshIsForgotten | internal/priority/planner.go:397-418 | a fresh item is among the changes exactly when the host's priority is missing, its enabled state disagrees with the weekly quota, or its priority is off by enough to matter |
| HostTransition.ExecuteOne | internal/apply/transition.go:247-319 | outcome, cause and store after one intent, whatever happens around each call |
| HostTransition.ApplyTarget | internal/apply/transition.go:472-510 | edited fields, target and whether anything changes |
| HostTransition.ReadFinal | internal/apply/transition.go:321-332 | the verifying read |
| HostTransition.Host.GetAuth | internal/host/client.go:64-73 | the document kept for an index, after whatever others did, or a failure |
| HostTransition.Host.ReplaceAuth | internal/host/client.go:96-118 | a replacement that happens, is refused, or happens and is reported as failed |
| HostTransition.Execute | internal/apply/transition.go:232-245 | every intent in turn, with totals counted from the details |
| HostTransition.WritesAtMostOnce | internal/apply/transition.go:247-307 | at most one replacement; none for no_change, conflict and failures before the commit |
| HostTransition.WritesOnlyItsFields | internal/apply/transition.go:472-510 | the document written goes back where it was read and differs only in the fields the intent sets or unsets |
| HostTransition.EditReadsAsTarget | internal/apply/transition.go:409-451 | reading the edited document yields exactly the target |
| HostTransition.CommittedIsVisible | internal/apply/transition.go:293-319 | committed means the store as last read showed the target under the intended identity |
| HostTransition.ReportsMeanWhatTheySay | internal/apply/transition.go:247-319 | when exactly each outcome and cause is reported; a replacement is attempted only if the document read is as expected and not yet as asked for, and shows what is asked for |
| HostTransition.QuietChangeCommits | internal/apply/transition.go:309-319 | undisturbed and conflict-free, committed exactly when the two identities agree |
| HostTransition.RetryWritesNothing | internal/apply/transition.go:453-466 | running a committed intent again writes nothing |
| HostTransition.RoundAddsUp | internal/apply/transition.go:234-245 | a round's totals account for every intent once and bound the replacements |
| PlanExecution.ExecutePlan | internal/apply/plan_execution.go:17-49 | the intents of the fresh changes, in order, as one round |
| PlanExecution.ChangeTakesEffect | internal/apply/transition.go:121-141 | on an undisturbed host, a change to a credential that still is as the plan saw it leaves it with the planned priority and enabled state, and is reported as committed exactly if anything differs |
| PlanExecution.PlanTakesEffect | internal/apply/plan_execution.go:17-49 | so does a whole round for every change of a plan, and no other document is touched |
| Estimator.NormalizeIsIdempotent | internal/state/estimator.go:123-154 | normalising any stored history gives a regular one that normalising leaves alone |
| Estimator.NormalizeKeepsQuotas | internal/state/estimator.go:123-154 | it keeps every change of quota, in order, and the newest time and reset |
| Estimator.NormalizeSampleHistory | internal/state/estimator.go:123-154 | the in-place loop computes that normal form |
| Estimator.SampleBySequence | internal/state/estimator.go:173-180 | the first sample with a sequence number |
| Estimator.LearnRate | internal/state/estimator.go:106-117 | the averaged rate, if the span qualifies |
| Estimator.ExtendHistory | internal/state/estimator.go:87-120 | window, cursor and rate when the quota changed |
| Estimator.UpdateSamplesAndCycleBurnRate | internal/state/estimator.go:40-121 | samples, cursor and rate after one probe, from arbitrary stored samples |
| Estimator.QuotaStore.MarkProbeSuccess | internal/state/store.go:422-480 | the entry of one key after a successful probe; the others stay |
| Estimator.StoredIsNewestOfLog | internal/state/estimator.go:55-107 | the stored samples are the newest records of the unbounded change log, numbered consecutively, and the cursor names one |
| Estimator.LogShows | internal/state/estimator.go:58-93 | a complete probe's figures are the newest record of that log, a new one exactly if the quota changed |
| Estimator.LessonIsLearnedWhen | internal/state/estimator.go:95-120 | exactly when a probe teaches, from which record to which, and the clamped share of weekly over short quota spent between them; and where the cursor goes |
| Estimator.MoreSpentNeverSlower | internal/state/estimator.go:106-117 | more of the weekly quota gone over the same stretch never teaches a lower rate |
| Estimator.UntaughtRate | internal/state/estimator.go:48-53 | until the first lesson the rate is the cold-start rate |
| Estimator.RunIsInStep | internal/state/estimator.go:55-107 | on a run the stored history is regular, so normalising it does nothing |
| Estimator.CursorNeverMovesBack | internal/state/estimator.go:94-120 | the learning cursor never moves back |
| Estimator.LessonsAreDisjoint | internal/state/estimator.go:100-120 | learning updates use disjoint spans of samples |
| Estimator.RateStaysInBounds | internal/state/estimator.go:114-120 | the learned rate stays within 0.08 and 0.30 for every history |
| Estimator.MarkedIsBounded | internal/state/store.go:422-480 | from arbitrary samples and for any capacity a probe keeps the rate within its bounds |
| Estimator.RateApproaches | internal/state/estimator.go:114-120 | k updates seeing the same clamped ratio shrink the distance to it by exactly 0.7^k |

## Left out

- Strings: model names, 429 bodies, headers, dates and window names arrive classified; auth ids and indexes arrive trimmed and providers in lower case.
- SHA-256 fingerprints: fingerprints are compared as opaque strings, and hashing is taken to be injective: a missing fingerprint is the joined identifying fields themselves.
- Arithmetic: no rounding of floats, no overflow of integers, counters, cursors or times; NaN and infinities do not occur.
- File-system work: a state file is replaced as a whole by a write that may fail before or after the replacement; temporary files, fsync, symlink checks and the size limit of the file are not modelled; each of their failures is one of those.
- Locks of the engine itself: each engine operation is one atomic step; the interleavings modelled are those of `access`, `persistMu` and the two generations.
- Pointers between entries: the engine's tables hold values, so aliasing of an entry reached twice is not represented.
- EngineClass.Engine.Snapshot: lists the entries in any order, because no property depends on the source's sorting of the listing.
- EngineClass.Engine.Save: one uninterrupted save; its three separate moments, with others between them, are the steps of `Persistence`.
- EngineRuns.ReachableIsSound: a reload finds all that the run accepted; a crash is a step of `Persistence`, whose next start is the reload of an earlier point of the run, so a lease granted after that point is forgotten.
- Durability.SwapLosesNothing: shutdown, readiness of the inventory and the failures of the preparation other than giving up are not modelled, and the time of the last update is the file's.
- ProbeRound.ApplyGuardEvidence: one call without interruption, the groups in the order given where the source ranges over a map (`ProbeRound.InterleavedRoundIsFenced` covers any order and any steps in between); persist signals and readiness that follow it are not modelled.
- Durability.RunKeepsInv: the worker's timers and signals are represented by savers that may begin at any moment; that a save eventually happens is not stated.
- Planner.PlanPositive: the library's stable sort is a straight insertion, which is what it computes for up to twenty elements and, for a comparison that orders the elements consistently, for any number.
- Classification.Classify: the failure texts of observations and the plan type are not carried.
- HostTransition.ExecuteOne: display names, redaction and error texts are not carried; a document that is the JSON literal null, on which the source's field map is nil, is not represented.
- HostTransition.ReadFinal: the detached context of the verifying read appears only as a read that may fail.
- Metrics, the last-pick record, latencies, audit projections, run history, management pages, HTTP, the plugin ABI, YAML and range checks of the configuration: field copying or plumbing that no property here depends on.
