# EraInfra, modelled and proved

EraInfra runs GitHub Actions jobs on a fleet of Workers. This project models its stateful cores in
Dafny and proves what they promise over whole runs:

- **Scheduling** (`Sorting`, `Placement`, `Capacity`, `HostChoice`, `Overfill`, `Scheduler`, `SnapshotRows`): a pass loads live work, warm
  guests and used slots into a snapshot and places the queue in order. Conservation, capacity, no
  overtaking and maximality rest on one fact: eligibility only gets harder during a pass.
- **Attempts and Runners** (`Retirement`, `RunnerProtocol`, `AttemptEndings`, `ControlPlane`): every handler that
  touches an Attempt row, and a model of the GitHub Runner behind it. Messages may be late or
  repeated. Job safety, slot accounting and the two controller lists are proved over every run.
- **Mesh** (`Fleet`, `Grants`): the allowlist and the exposure grants, with every locked region one
  step and any number of calls or streams in between.
- **Alerts** (`Incidents`, `AlertRuns`, `AlertProgress`, `AlertLimits`, `AlertTables`): the incident lifecycle of a
  rule, its announcements and its cooldown, over runs of evaluations, sweeps and switching off.
- **Worker Agent** (`Cpuset`, `CpusetText`, `CoreAllocator`, `RecoveryGate`, `WorkQueue`): the cpuset printer and parser, the
  core allocator with its reconcile pass, and the revision gate in front of the work queue.
- **Metrics** (`Quantile`, `Metrics`, `MetricsReport`): order-insensitive uploads and the weighted quantile.
- **Version pins** (`TokenRewrite`, `VersionTree`): the scan that rewrites standalone version tokens, and
  the two scans that rewrite a version as written and as a regular expression escapes it.

Code that updates rows, maps or queues in place is a class whose methods are proved against
functions on values; the properties are then proved about those functions, over sequences of steps.
Clocks, query results, GitHub, Docker and the network are parameters or steps of the environment.

Where the code does less than its comments say, the model follows the code, shows an input on which
the promise fails, and states exactly when it holds:

- `alerts.ts` promises at most one open incident per rule and subject. An evaluation reads a thousand
  pending and a thousand firing rows, so beyond that it opens second ones (`OverTheCap`,
  `OneOpenKeptIff`).
- The cooldown looks back over ten rows. A subject that flaps ten times is announced again inside
  its cooldown (`FlappingBreaksCooldown`, `CooldownBrokenIff`).
- The retirement backstop can end an Attempt whose Runner has a job (`BackstopLosesJob`,
  `BackstopSafeIff`).
- A warm start can exceed a machine's slots, by one, when legacy Jobs hold some (`LegacyJobOverfills`,
  `OverfillIff`).
- The core reconcile pass knows containers by name, so one that moved to other cores leaves the cores
  it uses free (`DriftIsMissed`, `BookedOrReportedIff`).
- Metrics uploads converge because a Worker orders its own: two arbitrary ones commute only in that
  case (`CommuteIffInOrder`). The average CPU can exceed the maximum when an empty bucket carries CPU
  (`AverageBoundIsSharp`, `AverageWithinMaxIff`).
- The token scan skips past a match, which is exact for every text if and only if the token never
  hides a standalone copy of itself (`ExactForEveryTextIff`); versions never do.
- The second scan of `replaceToken` reads what the first one wrote, so an occurrence can count twice:
  "3" does when version 3 is replaced by 3 (`CountedTwice`). `TwoPassesExactIff` says for which versions
  it cannot: for those without two dots in a row, the ones with a dot and the ones that do not stand
  alone in the new version.

Verify with `dafny verify dfyconfig.toml`.

## Model

| member | source | states |
|---|---|---|
| Sorting.SortSorts | packages/backend/convex/attemptMetricsModel.ts:119-121 | the sort the models use returns a permutation of its input in key order |
| Sorting.SortIsStable | packages/backend/convex/attemptScheduler.ts:381-385 | elements with equal keys keep their order |
| Placement.Choose | packages/backend/convex/attemptScheduler.ts:293-346 | the choice is an eligible candidate, and there is none only if no candidate is eligible |
| HostChoice.EligibleIff | packages/backend/convex/attemptScheduler.ts:293-325 | a candidate is eligible exactly if it is ready for this executor and image, carries the Profile's labels, was checked within twelve hours and heard of within two minutes, and the item, free if a warm guest is idle, fits its slots, nine tenths of its CPUs and memory, and 8 GiB of pool per guest |
| HostChoice.PlacedIff | packages/backend/convex/attemptScheduler.ts:266-350 | an item is placed exactly if some candidate is so, and then on such a candidate's host |
| Placement.ChoiceIsBest | packages/backend/convex/attemptScheduler.ts:337-346 | no eligible candidate ranks before the chosen one by pressure, then benchmark, then name |
| HostChoice.PressureIsLargestShare | packages/backend/convex/attemptScheduler.ts:326-330 | pressure is at least the CPU, memory and guest share of the host, each of what it may use, and equals one of them |
| HostChoice.BusierIsNotPicked | packages/backend/convex/attemptScheduler.ts:326-346 | a host busier in one dimension than an eligible host is in any is not chosen |
| HostChoice.PassSpreads | packages/backend/convex/attemptScheduler.ts:262-346 | so in a pass no item goes to such a host: work spreads before it fills |
| HostChoice.TiesGoToTheFaster | packages/backend/convex/attemptScheduler.ts:335-346 | under equal pressure the higher benchmark for the Profile's policy wins, fifty without a measurement of the last week, then the first name |
| Placement.CommitIsHarder | packages/backend/convex/attemptScheduler.ts:355-369 | placing an item only raises reservations and used slots and only lowers idle warm guests |
| Placement.PassIsHarder | packages/backend/convex/attemptScheduler.ts:266-372 | from any point of a pass to its end the ledger only gets harder |
| Placement.IneligibleStays | packages/backend/convex/attemptScheduler.ts:293-325 | a candidate that is not eligible stays so on every harder ledger, although taking a warm guest changes what the next item needs |
| Placement.NoOvertaking | packages/backend/convex/attemptScheduler.ts:266-372 | of two items with the same contract, if the later one is placed the earlier one was |
| Placement.LeftOutHasNoRoom | packages/backend/convex/attemptScheduler.ts:261-372 | an unplaced item is still ineligible on every machine when the pass ends |
| Placement.SecondPassPlacesNothing | packages/backend/convex/attemptScheduler.ts:261-372 | placing the leftovers again on the consumed snapshot places none of them |
| Placement.AppendingChangesNothing | packages/backend/convex/attemptScheduler.ts:75-78 | items appended to the queue never change the placements before them |
| Capacity.CommitConserves | packages/backend/convex/attemptScheduler.ts:355-369 | a placement, warm or cold, keeps reservation = live + placed + idle warm guests in each dimension |
| Capacity.PassConserves | packages/backend/convex/attemptScheduler.ts:183-230 | through a whole pass every machine's reserved vCPUs, memory and guests are its live work plus what was placed plus its idle warm guests |
| Capacity.UsedCountsPlacements | packages/backend/convex/attemptScheduler.ts:355-355 | used slots grow by exactly the number of items placed on the machine |
| Capacity.PickFits | packages/backend/convex/attemptScheduler.ts:293-325 | the machine picked holds the item within its CPUs, memory and guest limit |
| Capacity.PassStaysWithin | packages/backend/convex/attemptScheduler.ts:293-370 | every machine that received work ends the pass within its CPUs, memory and guest limit |
| Capacity.PassKeepsTenth | packages/backend/convex/attemptScheduler.ts:299-310 | a machine all of whose new items are smaller than it ends with a tenth of its CPUs unreserved, and a tenth of its memory likewise |
| Capacity.PassKeepsSlots | packages/backend/convex/attemptScheduler.ts:293-370 | and within its slots, when used slots count only work the snapshot saw |
| Capacity.AtMostOneOver | packages/backend/convex/attemptScheduler.ts:308-325 | whatever else holds its slots, a machine that received work ends at most one slot over |
| Overfill.OverfillNeeds | packages/backend/convex/attemptScheduler.ts:308-369 | a machine a pass overfills had used slots beyond its live work, an idle warm guest and room for both; it ends exactly one over, with fewer idle warm guests than that excess |
| Overfill.OverfillIff | packages/backend/convex/attemptScheduler.ts:183-369 | for given live work, used slots, idle warm guests and limit, some rows, loaded and queued as the scheduler does, make a pass that overfills the machine if and only if used slots exceed live work, a warm guest is idle, and both fit the limit |
| Capacity.LegacyJobOverfills | packages/backend/convex/admin.ts:115-115 | one slot held by a legacy Job and one warm guest: the placement exceeds the slots |
| Capacity.WholeHost | packages/backend/convex/attemptScheduler.ts:299-310 | an item that asks for at least a host's CPUs lands only on a host of exactly that size, and is all that host has to the end of the pass |
| Capacity.QueueIsOldestFirst | packages/backend/convex/attemptScheduler.ts:375-386 | the queue is exactly the unassigned work that matches its active Profile, oldest first |
| Capacity.OlderFirst | packages/backend/convex/attemptScheduler.ts:375-386 | with that queue, no item is placed while an older one of its Profile is left out |
| Scheduler.LoadWork | packages/backend/convex/attemptScheduler.ts:183-206 | the loop over live work reserves exactly its load and counts it per machine and Profile |
| Scheduler.LoadWarm | packages/backend/convex/attemptScheduler.ts:207-230 | the loop over readiness rows adds exactly the spare warm guests and leaves the ledger conserving |
| SnapshotRows.LiveWorkIsCounted | packages/backend/convex/attemptScheduler.ts:183-206 | live guests of a machine are its rows of live work |
| SnapshotRows.IdleIsWhatRowsReport | packages/backend/convex/attemptScheduler.ts:207-230 | idle guests are those the readiness row reports beyond the Profile's live work on the machine, if the row still describes its Profile, and otherwise none |
| Scheduler.LoadReady | packages/backend/convex/attemptScheduler.ts:168-174 | the loop groups exactly the ready rows by Profile, in order |
| SnapshotRows.ReadyAre | packages/backend/convex/attemptScheduler.ts:168-174 | the candidates of a Profile are its ready rows, each as often as it was read |
| Scheduler.SortCandidates | packages/backend/convex/attemptScheduler.ts:278-347 | the sorted candidates are exactly the eligible rows, each as often as it was read, in rank order, the specified choice first |
| Scheduler.Snapshot.Load | packages/backend/convex/attemptScheduler.ts:92-243 | a loaded snapshot starts a pass with every reservation equal to live work plus idle warm guests, each machine's stored used slots, and the ready rows of each Profile as its candidates |
| Scheduler.Snapshot.PlaceInOrder | packages/backend/convex/attemptScheduler.ts:266-372 | the loop sorts the eligible candidates of each item, takes the first, and so places each item where the specification does and leaves its ledger |
| Scheduler.Snapshot.Take | packages/backend/convex/attemptScheduler.ts:355-369 | updating the three maps in place is the specified commit |
| Scheduler.TryAssign | packages/backend/convex/attemptScheduler.ts:388-436 | from rows to placements: machines given work stay within CPUs, memory, guests and, without foreign slots, their slots; a whole-host item has its host to itself; used slots grow by the placements; no item overtakes an older one of its Profile; an item left out is turned away by every candidate when the pass ends |
| Retirement.SettleKeepsSlots | packages/backend/convex/attemptScheduler.ts:15-29 | settling a live Attempt, or taking it off its machine, gives back exactly its slot |
| Retirement.ClampNeverActs | packages/backend/convex/attemptScheduler.ts:15-29 | when the books balance, releasing a live Attempt's slot never reaches the clamp at zero |
| Retirement.ReleaseGivesOne | packages/backend/convex/attemptScheduler.ts:15-25 | a release takes one used slot off the machine, none below zero, and touches nothing else |
| RunnerProtocol.JobKeeps | packages/backend/convex/controllerApi.ts:494-612 | job messages keep every row well formed and every slot counted |
| RunnerProtocol.ClaimKeeps | packages/backend/convex/workerApi.ts:404-464 | so do the claim and the ready mark |
| RunnerProtocol.EndKeeps | packages/backend/convex/pinnedAttempts.ts:27-58 | so do a scale-down and the loss of a host label |
| RunnerProtocol.ReportKeeps | packages/backend/convex/workerApi.ts:529-619 | so does an executor's exit report |
| RunnerProtocol.ReconcileKeeps | packages/backend/convex/reconcile.ts:246-314 | so does a reconciler pass, whose repair counts every slot afresh |
| RunnerProtocol.LeaveKeeps | packages/backend/convex/admin.ts:46-61 | so does deleting a machine with Attempts still on it |
| RunnerProtocol.BooksBalance | packages/backend/convex/attemptRetirement.ts:176-223 | in every run each machine's used slots are its other work plus its unsettled Attempts |
| RunnerProtocol.PassRow | packages/backend/convex/reconcile.ts:246-314 | each row ends a reconciler pass as if handled alone, whatever the order |
| RunnerProtocol.PassNeverClamps | packages/backend/convex/reconcile.ts:266-283 | in the middle of a pass, after unreleased requeues, no slot release is clamped |
| RunnerProtocol.StepKeepsShelter | packages/backend/convex/attemptRetirement.ts:8-42 | every step of handlers, GitHub and Workers keeps a live Attempt behind each online Runner |
| RunnerProtocol.JobSafety | packages/backend/convex/attemptRetirement.ts:8-42 | in every run in which no reconciler pass finds a retirement older than six hours, unserved and not running on a reporting Worker, a Runner that has or may get a job has its Attempt preparing, ready or running on a Worker |
| RunnerProtocol.JobSafetyWhileSpared | packages/backend/convex/attemptRetirement.ts:94-131 | the same in every run whose backstop ends no Attempt with an online Runner |
| RunnerProtocol.BackstopSafeIff | packages/backend/convex/attemptRetirement.ts:94-131 | whatever the Runners are doing, a reconciler pass keeps that if and only if none of the rows it reads is due for the backstop |
| RunnerProtocol.BackstopLosesJob | packages/backend/convex/attemptRetirement.ts:78-131 | an allowed run in which the backstop cancels an Attempt whose Runner has a job |
| RunnerProtocol.NothingForgotten | packages/backend/convex/workerApi.ts:466-483 | in every run a settled Attempt off the cleanup list has a Runner that took a job or is deleted, so no registration is left behind |
| RunnerProtocol.ListsPartition | packages/backend/convex/controllerApi.ts:288-348 | in every run an unsettled Attempt is in exactly one of the active and the cleanup list of its Profile, a retiring one in the second and without a JIT secret |
| RunnerProtocol.ConfirmedDeleteEnds | packages/backend/convex/controllerApi.ts:350-381 | acknowledging a confirmed delete ends the Attempt as its retirement asked, off both lists, with exactly its slot freed |
| RunnerProtocol.JobCallsOffRetirement | packages/backend/convex/attemptRetirement.ts:239-251 | a job that reaches an idle retiring Attempt calls the retirement off, and a late acknowledgement then changes nothing |
| RunnerProtocol.JobMessagesRepeat | packages/backend/convex/controllerApi.ts:494-612 | a repeated job message changes nothing |
| RunnerProtocol.EndingsRepeat | packages/backend/convex/controllerApi.ts:350-492 | nor does a repeated scale-down, acknowledgement or exit report |
| RunnerProtocol.SettledIsFinal | packages/backend/convex/controllerApi.ts:575-612 | no message about a settled Attempt frees a slot or revives it |
| AttemptEndings.ReportDecides | packages/backend/convex/workerApi.ts:542-617 | a report by its own Worker ends a live Attempt as its retirement asked if it was idle and retiring, otherwise completed exactly on exit code zero unless an idle runner says it took no job, and failed else; the Runner is owed a delete unless a running Attempt exited cleanly; any other report ends nothing |
| AttemptEndings.PassByClocks | packages/backend/convex/reconcile.ts:246-314 | what a pass makes of each row, in milliseconds: a day in the queue, two minutes of silence before a claim or while preparing, 45 minutes of preparation, ten minutes of silence while running, six hours of an unserved retirement; every other row is left alone |
| AttemptEndings.PassRecounts | packages/backend/convex/reconcile.ts:519-538 | after a pass a machine's used slots are its live other work plus the unsettled Attempts on it |
| AttemptEndings.JoinAddsEmpty | packages/backend/convex/machines.ts:407-422 | a machine joins empty, under an id nothing refers to |
| AttemptEndings.MessagesDo | packages/backend/convex/controllerApi.ts:350-612 | what placement, claim, ready mark, job messages, scale-down, acknowledged delete and lost label make of the row they are about, by its state, profile, Worker and retirement; no other row changes |
| AttemptEndings.RowsComeAndGo | packages/backend/convex/controllerApi.ts:383-453 | creation adds a pending row under a new name only; retention drops only settled rows whose Runner is owed no delete |
| AttemptEndings.HeartbeatDoes | packages/backend/convex/agentApi.ts:178-196 | a heartbeat after more than two minutes of silence calls off the retirement of what the Worker runs, and nothing else |
| AttemptEndings.EveryEndingHasACause | packages/backend/convex/workerApi.ts:542-617 | in every run an Attempt is completed only by its job's completion or a clean exit, failed only by a failing exit or a retirement for failure, cancelled only while it waited or by a retirement for cancellation; retirements come from scale-downs, lost labels and the reconciler alone |
| ControlPlane.Tables.ReleaseMachineSlot | packages/backend/convex/attemptScheduler.ts:15-25 | one slot back, not below zero; nothing for no machine or an unknown one |
| ControlPlane.Tables.RetireAttempt | packages/backend/convex/attemptRetirement.ts:59-76 | throws exactly outside the online states, reports whether it started the retirement, and keeps the first one |
| ControlPlane.Tables.FinishRetirement | packages/backend/convex/attemptRetirement.ts:176-199 | throws exactly when nothing retires; otherwise settles the row as asked and frees its slot |
| ControlPlane.Tables.KeepForReturningWorker | packages/backend/convex/attemptRetirement.ts:138-146 | calls off exactly a running Attempt's retirement |
| ControlPlane.Tables.KeepRunningAttemptsOfReturningWorker | packages/backend/convex/attemptRetirement.ts:153-168 | the loop calls off the retirement of every running Attempt of the Worker and changes no other row |
| ControlPlane.Tables.WorkerHeartbeat | packages/backend/convex/agentApi.ts:178-196 | a heartbeat after a silence calls off every running retirement of the Worker; one on time changes no row; the books stay balanced |
| ControlPlane.Tables.CancelUnclaimedAttempt | packages/backend/convex/attemptRetirement.ts:206-223 | throws unless pending; otherwise cancels at once with the Runner owed a delete |
| ControlPlane.Tables.EndIdleAttempt | packages/backend/convex/attemptRetirement.ts:230-237 | cancels an unclaimed Attempt and retires a claimed one |
| ControlPlane.Tables.CancelAttempt | packages/backend/convex/controllerApi.ts:461-486 | throws exactly on a running Attempt of the Profile and is a no-op on unknown and settled ones |
| ControlPlane.Tables.CreateAttempt | packages/backend/convex/controllerApi.ts:383-453 | idempotent per Runner name; throws on an unregistered contract, or when the name has another Profile, contract or Runner id |
| ControlPlane.Tables.ClaimAttempt | packages/backend/convex/workerApi.ts:404-450 | hands the JIT config out exactly to the assigned Worker of a pending Attempt, and deletes it with that |
| ControlPlane.Tables.MarkJobStarted | packages/backend/convex/controllerApi.ts:494-563 | throws for an unknown Attempt, ignores a settled one, keeps a running one's retirement, calls off an idle one's |
| ControlPlane.Tables.MarkJobCompleted | packages/backend/convex/controllerApi.ts:575-612 | throws for an unknown Attempt and frees a slot only if it was not settled |
| ControlPlane.Tables.CompleteRunnerCleanup | packages/backend/convex/controllerApi.ts:350-381 | acts only on a row with that Profile and Runner id that is owed a delete: ends a retiring one, clears the mark of another |
| ControlPlane.Tables.ReportAttempt | packages/backend/convex/workerApi.ts:529-619 | the specified ending, stated by exit code, runner's word and retirement; a report about another Worker's Attempt changes nothing |
| ControlPlane.Tables.ReconcileAttempt | packages/backend/convex/reconcile.ts:246-314 | each live row is left, requeued, kept, retired or ended by its clocks in milliseconds |
| ControlPlane.Tables.CountHeld | packages/backend/convex/reconcile.ts:517-527 | the counting loop counts, per machine, its other work plus the live Attempts on it |
| ControlPlane.Tables.RepairSlots | packages/backend/convex/reconcile.ts:529-538 | the repair loop leaves every machine with exactly that many used slots |
| ControlPlane.Tables.Reconcile | packages/backend/convex/reconcile.ts:246-538 | the whole pass over Attempts: each judged in turn, then the repair; the books balance again afterwards |
| Fleet.StaysCovered | apps/mesh/src/fleet.rs:56-99 | each step keeps some call in progress responsible for every tracked open connection of a removed peer |
| Fleet.RunKeepsInv | apps/mesh/src/fleet.rs:56-99 | that holds in every interleaving of register, replace, drops and closes |
| Fleet.Revocation | apps/mesh/src/fleet.rs:56-99 | once no call is in progress, every open tracked connection belongs to a peer of the current fleet |
| Fleet.ListedPeersKeepConnections | apps/mesh/src/fleet.rs:56-99 | while its peer stays listed, no interleaving of these calls closes a connection |
| Fleet.RunRemembers | apps/mesh/src/fleet.rs:56-90 | in every run the fleet is the list last installed and the tracked connections are exactly those a register call has put on a list |
| Fleet.OpenWasConnected | apps/mesh/src/fleet.rs:77-99 | an open connection was made, and is never open again once its last handle is gone |
| Fleet.TakeListTakesAll | apps/mesh/src/fleet.rs:92-99 | taking a removed peer's list leaves it empty and every other list alone |
| Fleet.ConnectOpens | apps/mesh/src/fleet.rs:77-90 | a connection that was made is open, and making one changes nothing else |
| Fleet.RevocationIsReached | apps/mesh/src/fleet.rs:56-99 | from every reached state the calls in progress can end, and then only peers of the present fleet have tracked open connections |
| Fleet.Allowlist.Register | apps/mesh/src/fleet.rs:77-90 | accepts exactly peers of the fleet, closes the connection otherwise, and keeps the list valid |
| Fleet.Allowlist.ClosePeer | apps/mesh/src/fleet.rs:92-99 | takes the peer's list and closes exactly its upgradable connections |
| Fleet.Allowlist.Replace | apps/mesh/src/fleet.rs:56-71 | installs the new list, returns exactly the removed peers and closes exactly their tracked connections |
| Grants.AllowedOnStream | apps/mesh/src/daemon.rs:86-98 | replacing a grant list revokes a stream's token if and only if the stream is on that exposure and its peer was dropped |
| Grants.RunKeepsInv | apps/mesh/src/daemon.rs:468-540 | tokens, streams, grants and desired state stay consistent in every run of control calls and admissions |
| Grants.Revocation | apps/mesh/src/daemon.rs:911-960 | once no update is in progress, a stream still served is on the exposure now installed under its service's name, its peer is on that grant list, and the peer was in the fleet when it was admitted |
| Grants.AdmitDecides | apps/mesh/src/daemon.rs:936-951 | with its peer in the fleet and on the grant list a stream holds exactly that peer's token, otherwise it is refused; no other stream is affected |
| Grants.LookupFinds | apps/mesh/src/daemon.rs:926-935 | a stream finds the exposure now installed under the service's name, if there is one |
| Grants.GrantsComeFromAdmission | apps/mesh/src/daemon.rs:911-960 | in every run a stream holding a grant was admitted while its peer was in the fleet and on its exposure's grant list, after finding that exposure installed |
| Grants.CallFinishes | apps/mesh/src/daemon.rs:499-540 | a control call in progress can end, cancelling exactly what it displaced |
| Grants.CallsTakeEffect | apps/mesh/src/daemon.rs:468-540 | in every run, once expose or unexpose has ended its service has exactly the target, limit and peers asked for, or is gone with no stream served; other services stay as they were |
| Grants.RetainedKeepStreams | apps/mesh/src/daemon.rs:499-505 | an authorization-only update ends exactly the streams of the peers it removes |
| Grants.DesiredIsLive | apps/mesh/src/daemon.rs:468-540 | once no update is in progress, the desired exposures are the live ones |
| Grants.Daemon.MakeTokens | apps/mesh/src/daemon.rs:481-484 | one fresh token per distinct peer, or an error if any peer id does not parse |
| Grants.Daemon.SetAllowedPeers | apps/mesh/src/daemon.rs:87-97 | the loop keeps retained tokens, installs new ones and cancels the rest |
| Grants.Daemon.Expose | apps/mesh/src/daemon.rs:468-527 | a bad request changes nothing; otherwise the call is its locked regions in order, and reports whether the spec changed |
| Grants.Daemon.Unexpose | apps/mesh/src/daemon.rs:529-540 | removes the exposure, cancels it, and reports whether there was one |
| Incidents.BreachedOk | packages/backend/convex/alerts.ts:617-650 | a breach keeps a subject's file consistent: one open incident, sound firing times, sound announcements |
| Incidents.ClearedOk | packages/backend/convex/alerts.ts:652-668 | so does clearing it |
| Incidents.DisabledOk | packages/backend/convex/alerts.ts:457-482 | so does switching the rule off |
| AlertRuns.ClosesTheOpenOne | packages/backend/convex/alerts.ts:447-478 | below the cap, closing every row read closes the subject's open incident and nothing else |
| Incidents.SweptOk | packages/backend/convex/alerts.ts:671-678 | so does retention, which forgets an announcement only after thirty days |
| AlertProgress.SweepDropsTheOld | packages/backend/convex/alerts.ts:671-684 | a sweep drops exactly the rows of its batch resolved more than thirty days ago |
| Incidents.NewNoticeIsSpaced | packages/backend/convex/alerts.ts:586-603 | a new firing notice is a cooldown after every earlier one, or ten newer incidents hid that one |
| AlertRuns.AtMostOneOpen | packages/backend/convex/alerts.ts:36-43 | below the read cap, a subject never has two open incidents |
| AlertRuns.FewSubjectsAreOrderly | packages/backend/convex/alerts.ts:446-456 | when at most a thousand subjects ever breach, no evaluation reaches the read cap |
| AlertRuns.FiresAfterPending | packages/backend/convex/alerts.ts:617-643 | an incident that fired breached at every applied evaluation from its first to its firing, for at least the pending time |
| AlertProgress.FiresOnTime | packages/backend/convex/alerts.ts:614-641 | in every run an incident fires at the first evaluation at or past the pending time, and is pending only while there was none |
| AlertProgress.OpenIffBreaching | packages/backend/convex/alerts.ts:614-669 | after an evaluation a subject has an open incident if and only if it breached |
| AlertProgress.DatesFromFirstBreach | packages/backend/convex/alerts.ts:614-641 | with the rule left on, the open incident dates from the first evaluation of the present stretch of breaches |
| AlertProgress.AnnouncedWhenDue | packages/backend/convex/alerts.ts:643-648 | a firing incident not yet announced is announced at the next evaluation that finds it breaching, unless the rule is muted or one of the ten newest incidents was announced inside the cooldown; nothing else is announced |
| AlertProgress.ResolvedWhenOver | packages/backend/convex/alerts.ts:651-668 | when the subject no longer breaches, a pending incident is forgotten, a firing one resolved and announced as resolved exactly if it was announced and the rule is not muted |
| AlertRuns.AnnouncedOnce | packages/backend/convex/alerts.ts:645-668 | each incident announces firing at most once, and resolved at most once and only after it |
| AlertRuns.CooldownHolds | packages/backend/convex/alerts.ts:586-650 | two firing notices for a subject are a cooldown apart unless ten newer incidents hid the earlier; retention is never the cause |
| AlertRuns.OneOpenKeptIff | packages/backend/convex/alerts.ts:446-456 | with the cap in play, a subject keeps one open incident if and only if a breach finds the one it has |
| AlertRuns.CooldownBrokenIff | packages/backend/convex/alerts.ts:586-650 | a due incident's notice falls inside the cooldown of an earlier notice if and only if the look-back shows none and an incident outside it was announced within the cooldown |
| AlertLimits.OverTheCap | packages/backend/convex/alerts.ts:446-456 | with more than a thousand subjects breaching, a second open incident appears |
| AlertLimits.FlappingBreaksCooldown | packages/backend/convex/alerts.ts:586-603 | an hour's cooldown and two firing notices twenty minutes apart, in a reachable run |
| AlertTables.LastFiringNotice | packages/backend/convex/alerts.ts:586-603 | the fold over the ten newest rows is the latest announcement among them, the given incident aside |
| AlertTables.BreachSubject | packages/backend/convex/alerts.ts:614-648 | the first loop's body is the specified step: it opens an incident, or fires a pending one exactly when its pending time is over |
| AlertTables.ClearSubject | packages/backend/convex/alerts.ts:652-668 | the body of the second loop is the specified clearing |
| AlertTables.Table.EvaluateRule | packages/backend/convex/alerts.ts:605-669 | the two loops apply every subject independently, whatever the order |
| Cpuset.RangesAreExact | apps/action-runner-agent/cpuset.ts:69-93 | the ranges of a sorted list cover exactly its ids, strictly increase and cannot be merged |
| Cpuset.DecimalReadsBack | apps/action-runner-agent/cpuset.ts:84-89 | a printed number reads back as itself, digits only |
| Cpuset.FormatCpuset | apps/action-runner-agent/cpuset.ts:69-93 | the printing loops produce the specified text |
| Cpuset.ParseCpuset | apps/action-runner-agent/cpuset.ts:95-113 | the parsing loop accepts exactly what the specification does, with the same ids |
| Cpuset.PrintedParses | apps/action-runner-agent/cpuset.ts:69-113 | for every non-empty list of safe CPU ids, parsing the printed text gives the sorted set back |
| Cpuset.AcceptedIds | apps/action-runner-agent/cpuset.ts:95-113 | any accepted text yields a non-empty increasing list of safe ids |
| Cpuset.AcceptedReprints | apps/action-runner-agent/cpuset.ts:69-113 | and reprints to a normal form with the same ids |
| CpusetText.ParsedIff | apps/action-runner-agent/cpuset.ts:95-113 | a text is accepted if and only if, trimmed, each part between commas is a number or a range of safe integers not backwards; the ids are exactly those the parts name, increasing |
| CpusetText.PartIff | apps/action-runner-agent/cpuset.ts:100-106 | a part is read as a range exactly if it is digits, or digits, a dash and digits, with these values in order and safe |
| CpusetText.TrimIsExact | apps/action-runner-agent/cpuset.ts:96-97 | trimming removes white space of both ends and leaves none there |
| CpusetText.SplitIsExact | apps/action-runner-agent/cpuset.ts:99-99 | the parts hold no comma and join to the text again |
| CoreAllocator.RecordKeepsPartition | apps/action-runner-agent/cpuset.ts:186-206 | recording a reservation of free cores keeps the partition of all cores |
| CoreAllocator.ReleaseKeepsPartition | apps/action-runner-agent/cpuset.ts:178-184 | so does a release |
| CoreAllocator.ReleaseUndoesRecord | apps/action-runner-agent/cpuset.ts:178-206 | a release undoes the reservation exactly |
| CoreAllocator.ReserveTakesLowest | apps/action-runner-agent/cpuset.ts:153-168 | a reservation of at least one and at most all free cores under a new key takes that many, and no free core below them is left |
| CoreAllocator.ReserveRefuses | apps/action-runner-agent/cpuset.ts:153-168 | any other takes nothing |
| CoreAllocator.HoldTakesExactly | apps/action-runner-agent/cpuset.ts:170-176 | holding takes exactly the named cores if there are any, all are free and the key is new, and otherwise nothing |
| CoreAllocator.ReconcileAccounts | apps/action-runner-agent/cpuset.ts:333-362 | a pass leaves the Agent's own reservations alone and drops those of dead containers; a live container with a reservation in its name keeps it, any other now holds exactly its cores or is reported |
| CoreAllocator.ReportsAreExact | apps/action-runner-agent/cpuset.ts:333-362 | adopted and contending names split the live containers without a reservation in their name; released names are those of adopted reservations whose container is gone |
| CoreAllocator.BookedOrReportedIff | apps/action-runner-agent/cpuset.ts:342-361 | a live container ends up booked on exactly its cores or reported if and only if it had no reservation in its name, or one on exactly those cores |
| CoreAllocator.DriftIsMissed | apps/action-runner-agent/cpuset.ts:342-361 | a reachable state in which a container moved to other cores: the pass changes and reports nothing and leaves cores in use free |
| CoreAllocator.ReconcileIsIdempotent | apps/action-runner-agent/cpuset.ts:333-362 | repeating a pass on the same live containers changes nothing |
| CoreAllocator.EveryRunPartitions | apps/action-runner-agent/cpuset.ts:123-206 | after every sequence of operations the free set and the reservations partition all cores |
| CoreAllocator.Allocator.ReserveCores | apps/action-runner-agent/cpuset.ts:153-168 | the specified reservation, nothing when too few cores are free, an error on a duplicate key |
| CoreAllocator.Allocator.HoldCores | apps/action-runner-agent/cpuset.ts:170-176 | holds exactly the named cores if all are free |
| CoreAllocator.Allocator.ReleaseCores | apps/action-runner-agent/cpuset.ts:178-184 | gives back exactly what the key held and reports whether it held anything |
| CoreAllocator.Allocator.ReconcileLive | apps/action-runner-agent/cpuset.ts:333-362 | the release and adoption loops are the specified pass, with its three reports |
| RecoveryGate.StepKeeps | apps/action-runner-agent/index.ts:534-603 | every handler keeps the queue, the gate and the admission log consistent |
| RecoveryGate.GateHolds | apps/action-runner-agent/index.ts:571-672 | whatever is live when the Worker starts, every admission, commands included, finds the ids of the last successful recovery equal to the live ids, an Attempt or Experiment being one of them |
| RecoveryGate.PumpAdmits | apps/action-runner-agent/index.ts:650-672 | a pump through an open gate with a free core admits exactly the first items that fit the free slots, in queue order, and changes nothing else; through a closed gate it changes nothing |
| WorkQueue.StepAdmits | apps/action-runner-agent/index.ts:534-672 | every event readies the Worker, with its gate, queue and limits spelled out, and then admits exactly what may start |
| WorkQueue.NothingWaits | apps/action-runner-agent/index.ts:650-672 | after every event of every run no queued item could start |
| WorkQueue.SlotsAreCounted | apps/action-runner-agent/index.ts:650-687 | in every run the Worker goes by the last limit and core count it was told, has admitted exactly what runs or has ended, and never runs more than the largest limit it was told |
| WorkQueue.ShutdownStops | apps/action-runner-agent/index.ts:650-658 | once shutting down it admits nothing more and starts no recovery |
| WorkQueue.QueuedStays | apps/action-runner-agent/index.ts:534-561 | a queued item stays queued or is admitted unless an update of its kind no longer lists it |
| WorkQueue.NothingOfferedIsLost | apps/action-runner-agent/index.ts:534-561 | in every run whatever an update offered is then queued or was admitted |
| WorkQueue.GateCanReopen | apps/action-runner-agent/index.ts:576-603 | from every reached state with a closed gate at most two events, a retry and successful recoveries, open it |
| WorkQueue.FailedPassWaits | apps/action-runner-agent/index.ts:590-597 | a failed recovery leaves the gate closed, admits nothing and sets the retry |
| WorkQueue.StartupOpens | apps/action-runner-agent/index.ts:801-833 | a Worker whose startup recovery succeeds opens with the sets it loaded; one whose recovery fails has crashed |
| WorkQueue.CrashedAdmitsNothing | apps/action-runner-agent/index.ts:801-833 | and admits nothing in any run from there |
| RecoveryGate.QueueHolds | apps/action-runner-agent/index.ts:534-561 | in every run queued keys are distinct and remembered; Attempts and Experiments among them are live at the server, commands were on its last list of live commands or offered since |
| RecoveryGate.NeverStuck | apps/action-runner-agent/index.ts:576-603 | in every run, while the gate is closed a recovery is in flight or its retry is due, through every failure |
| RecoveryGate.Worker.Startup | apps/action-runner-agent/index.ts:801-833 | the process accepts work if and only if its startup recovery succeeded, and then that recovery was for the live sets it loaded |
| RecoveryGate.Worker.PumpQueue | apps/action-runner-agent/index.ts:650-672 | the admission loop takes the first items that fit, in order, and no more |
| RecoveryGate.Worker.DrainRuntimeRecovery | apps/action-runner-agent/index.ts:576-588 | starts at most one recovery, for the present revision and live ids |
| RecoveryGate.Worker.RecoveryReturned | apps/action-runner-agent/index.ts:588-602 | a success completes only the revision it started from; a failure keeps the gate closed and sets the retry |
| RecoveryGate.Worker.ReconcileWithServer | apps/action-runner-agent/index.ts:534-554 | names exactly the running work to stop; the backward splice and the key loop drop exactly what is no longer live, keys of running work aside |
| RecoveryGate.Worker.Enqueue | apps/action-runner-agent/index.ts:556-561 | queues a key only the first time |
| RecoveryGate.Worker.OnLiveUpdate | apps/action-runner-agent/index.ts:849-887 | an Attempt or Experiment update: new live set, reconcile, enqueue, then recovery if the set changed and a pump otherwise |
| RecoveryGate.Worker.OnCommands | apps/action-runner-agent/index.ts:835-848 | a command update reconciles, enqueues and pumps, and leaves revision, completed pass, recovery, retry and live sets unchanged |
| Quantile.ComputeQuantile | packages/backend/convex/attemptMetricsModel.ts:115-129 | the loop returns the specified quantile |
| Quantile.QuantileIsReached | packages/backend/convex/attemptMetricsModel.ts:115-129 | for 0 < q <= 1 and positive total, it is a weighted value where the weight at or below reaches q of the total and the weight below does not |
| Quantile.QuantileIsUnique | packages/backend/convex/attemptMetricsModel.ts:115-129 | at most one value satisfies that |
| Quantile.QuantileIgnoresOrder | packages/backend/convex/attemptMetricsModel.ts:115-129 | hence the order of the buckets does not matter |
| Metrics.AssertValidSnapshot | packages/backend/convex/attemptMetricsModel.ts:183-234 | the checks, made one by one with early failure, accept exactly what a series can have produced: counts in range, columns of one length, and one point per bucket at the start of distinct increasing buckets below 360 |
| Metrics.P95WithinMax | packages/backend/convex/attemptMetricsModel.ts:135-168 | the reported p95 never exceeds the reported maximum |
| Metrics.AverageWithinMax | packages/backend/convex/attemptMetricsModel.ts:135-168 | nor does the average, when zero-length buckets carry no CPU |
| Metrics.AverageBoundIsSharp | packages/backend/convex/attemptMetricsModel.ts:135-168 | a valid snapshot whose empty bucket carries CPU and whose average exceeds the maximum |
| Metrics.AverageWithinMaxIff | packages/backend/convex/attemptMetricsModel.ts:135-168 | the average stays within the maximum for every accepted snapshot with the same times and the same CPU in empty buckets if and only if those carry none, or there is no time at all |
| MetricsReport.P95IsAUsage | packages/backend/convex/attemptMetricsModel.ts:115-168 | on an accepted snapshot the reported p95 is the usage of a bucket, 95% of the time used at most that and less than 95% used less, in whole milliseconds |
| MetricsReport.MaxIsAPeak | packages/backend/convex/attemptMetricsModel.ts:146-160 | the reported maximum bounds every bucket and every interval and is one of them, or nothing ran |
| MetricsReport.AverageIsUsage | packages/backend/convex/attemptMetricsModel.ts:143-156 | the average times the duration is the CPU time used |
| MetricsReport.PeakIsAReading | packages/backend/convex/attemptMetricsModel.ts:148-168 | the memory peak is the largest reading of all; allotment and counts are carried over |
| MetricsReport.TotalsAddUp | packages/backend/convex/attemptMetricsModel.ts:135-168 | duration, traffic and disk totals of a series are those of its first buckets plus those of the rest |
| MetricsReport.OneBucketTotals | packages/backend/convex/attemptMetricsModel.ts:135-168 | and those of one bucket are what it says |
| Metrics.DeliveriesKeepNewest | packages/backend/convex/attemptMetrics.ts:23-80 | any sequence of one Worker's deliveries stores the greatest one by (final, samples) |
| Metrics.UploadsConverge | packages/backend/convex/attemptMetrics.ts:23-80 | two sequences that deliver the same uploads, in any order and repetition, store the same |
| Metrics.ReplayChangesNothing | packages/backend/convex/attemptMetrics.ts:23-80 | delivering an upload again changes nothing |
| Metrics.ReplacedOnlyByNewer | packages/backend/convex/attemptMetrics.ts:45-53 | another upload replaces a stored one exactly if that is not final and it has more samples, or as many and is final |
| Metrics.StoredKeeps | packages/backend/convex/attemptMetrics.ts:54-59 | the stored series is the upload with an error text over 200 characters cut to its first 200 |
| Metrics.CommuteIffInOrder | packages/backend/convex/attemptMetrics.ts:23-80 | two uploads commute if and only if they are the same, or at most one is final and (final, samples) orders them strictly |
| Metrics.MetricsTables.RecordAttemptMetrics | packages/backend/convex/attemptMetrics.ts:32-80 | refuses what the source refuses and otherwise stores the newest upload delivered so far |
| TokenRewrite.ReplaceStandalone | scripts/pinbump/tree.go:169-192 | the loop is the specified scan, and exact for every token that never hides itself |
| TokenRewrite.EmptyMatchesNothing | scripts/pinbump/tree.go:169-172 | an empty token matches nothing |
| TokenRewrite.ScanIsExact | scripts/pinbump/tree.go:149-192 | for such tokens the scan rewrites every standalone occurrence and nothing else, and counts them |
| TokenRewrite.ExactForEveryTextIff | scripts/pinbump/tree.go:169-192 | the scan is exact on every text if and only if the token never hides a standalone copy |
| TokenRewrite.VersionsNeverHide | scripts/pinbump/tree.go:149-154 | a version of digits and dots that starts and ends with a digit never does |
| VersionTree.Tree.Read | scripts/pinbump/tree.go:27-38 | reads an edited file from memory and any other from disk |
| VersionTree.Tree.ReplaceToken | scripts/pinbump/tree.go:149-167 | rewrites one file by both scans, or fails and changes nothing when they count fewer occurrences than asked; for versions the second scan cannot misread, that is exactly the occurrences of both spellings in the file as it was |
| VersionTree.TwoPassesExact | scripts/pinbump/tree.go:154-192 | for any two tokens, equal or never starting at one place, that start and end with a digit and whose other digits follow a digit or a dot, as the first replacement does: if that neither matches nor begins a match of the second, the two scans make both edits in place and count every occurrence once |
| VersionTree.TwoPassesExactIff | scripts/pinbump/tree.go:149-167 | for versions, rewriting and counting are exact on every file if and only if the second scan does not see what the first one wrote; without empty parts, if and only if the old version has a dot or does not stand alone in the new one |
| VersionTree.CountedTwice | scripts/pinbump/tree.go:154-167 | for every other pair of versions, a file with one occurrence that is counted twice |
| VersionTree.SpellingsAddUp | scripts/pinbump/tree.go:149-154 | the occurrences of a version are the plain and the escaped ones if it has a dot, and otherwise just the plain ones |

## Left out

- Dashboard, documentation, hub routing and storage, build configuration: interface and plumbing.
- GitHub, Docker, QUIC, Convex and timers themselves: steps of the environment or parameters.
- Liveness, such as a retirement that is eventually confirmed: it depends on GitHub and on controllers.
- Messages, log lines, selection reasons and notification bodies: no property depends on them.
- Attempt fields no property depends on (job and workflow details, exit codes, reasons), and the legacy `jitConfig` column.
- Legacy Jobs and Experiments on the control plane: only the slots they hold are counted, as `otherWork`.
- Controller lease, callers' authorization, host-label matching, readiness admission and controller liveness: assumed as inputs.
- Scheduler.TryAssign: returns where each queued item goes and the used slots to write; `RunnerProtocol` models those writes one placed Attempt at a time.
- ControlPlane.Tables.Reconcile: takes the live Jobs and Experiments of each machine after their own recovery as an input.
- The fleet hooks, dialling, the connection pool and per-exposure connection limits of the mesh.
- Delivery of notifications per destination, rule edits and muting: an announcement is one notice, and each evaluation carries whether the rule is muted.
- Machine names are ranked by number, and floating point is exact arithmetic; `0.9` is nine tenths.
- The series and the summary of an Attempt's metrics are one stored entry, and their purge is not modelled.
- Sets of ids iterate in an unspecified order where the source's order does not reach the result.
- `withCores` around a running executor: only its reserve and release are modelled.
- AlertTables.Table.EvaluateRule: receives the result of the two index reads, described by `OpenMap`, instead of scanning an index.
- RunnerProtocol.JobSafety: excepts runs in which the retirement backstop becomes due, since `BackstopLosesJob` shows it can end an Attempt mid-job.
