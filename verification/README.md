# Verified model of CaberOS's stateful cores

CaberOS is a gateway that runs agents. This project models the parts of it that hold real state machines
and in-place algorithms, and proves what they guarantee over whole runs. Run `dafny verify dfyconfig.toml`
in this directory.

| part of the program | files here |
|---|---|
| scheduler engine: ticks, overlap and missed-run policies, retries, restart | Schedules, SchedulerSteps, SchedulerRuns, SingleRun, QueueOrder, Cadence, Sweeps, Firing, Retries, Executions, Revisions, Management, Scheduler |
| redaction at the read boundary | Patterns, Redaction, Payload |
| runtime installer: archive extraction | ArchiveNames, FileTree, Walks, LinkChains, TarExtract |
| runtime installer: install jobs | InstallJob, InstallWorld, InstallSafety, InstallRuns, InstallRows, InstallCourse |
| persisting event emitter and attachment store | Emitter, EmitterRuns, Receipts, Histories, Scopes, Attachments |
| trace waterfall: parent links, filter, group fold | TraceLinks, TraceFilter, TraceGroups |
| gateway log and supervisor | RotatingLogs, Supervisor |
| permission editor | Permissions |
| notification fan-out | Fanout, CommitFeed |
| run event buffer and streams | RunEvents |

How the model is built:

* Code that updates things in place is a class or a looping method (the scheduler's `Engine`, the install
  `Job`, the extraction `Stage`, the `PersistingEmitter`, the `RotatingLog`, ...). Its methods are proved
  equal to step functions, and the run theorems are proved about those functions.
* Concurrency is a state machine whose steps lie between two awaits or two lock acquisitions: install jobs
  with cancellation and crashes, supervisor threads, database sessions, event streams. The theorems hold for
  every interleaving.
* A database tick is one transaction in which later queries see earlier row updates. Where a query leaves
  ties open, the answer is a parameter, and the theorems hold for every answer.
* What the program takes from outside is a parameter: the next instant of a cron expression (only assumed to
  be later), the match a regex engine prefers, Unicode case folding, decoders, clock readings, and the
  outcomes of downloads, health checks, model runs and file writes.
* Regular expressions are syntax trees with their languages; the seven secret patterns are written out.

Where the code does something else than its comments or interface suggest, the model follows the code:

* Schedules: an explicit `null` overlap policy passes validation and behaves like the parallel policy; an
  explicit `null` missed-run policy records nothing (`SingleRun.FireOneRunningIff`, `Sweeps.SweepRecords`).
* A sweep of a late schedule drops an instant equal to its own clock reading and loses the phase of an interval
  schedule that is more than 25 instants late (`Sweeps.CatchUpCompleteIff`, `Sweeps.PhaseKeptIff`); a stored
  instant equal to the reading, which a resume or an edit can hand it, stays as it is (`Sweeps.SweepMovesOn`).
* A retry back-off of zero seconds means sixty.
* `cancel_previous` and the parallel policies can overtake occurrences that are still queued
  (`QueueOrder.FireOvertakesIff`).
* `_scrub` means to drop a dictionary entry whose redacted key is ambiguous; it keeps the later of two entries whose
  keys fall together (`Payload.DictScrubbed` is about all other dictionaries).
* `bound_payload` computes a marker for unserialisable payloads and then returns the other marker.
* A job that start-up reconciliation marks completed still shows its last install as pending
  (`InstallRuns.ReconciledRowsStayPending`).
* "Disable all" in the settings dialog does not disable the tools of a server that has a grant of its own
  (`Permissions.CapabilitiesTab.SetAllModes`), and saving forgets what is granted to tools and servers that
  are not listed at the moment (`Permissions.SavesNothingElse`).
* `wait_for_event` promises a number beyond the caller's and keeps that exactly for callers that are not ahead of
  the buffer (`RunEvents.WokenBeyondIff`). The stream of a live run can send a client two or more ahead of it
  numbers it already has (`RunEvents.AheadRepeats`); every other client is served in order (`RunEvents.ServedIff`),
  and none loses an event beyond its own number (`RunEvents.StreamSendsAll`, `RunEvents.AheadGets`). The cleanup
  after a timeout never runs, because the timeout has cancelled the future by then.
* A cancel noticed inside the download loop is caught there as a failed download: the row reads failed instead of
  cancelled (`InstallRows.CancelInDownloadFails`).
* "Nothing below a link" has one exception in the tar scan: a symlink called "." has the empty canonical name,
  which the prefix test never matches (`TarExtract.BelowLinksIff`, `TarExtract.DotLinkPasses`).
* A terminal event of one sub-agent is dropped as a repetition if another has settled the same call id before
  (`Scopes.ScopesIndependentIff`).
* A gateway start would push a child that still runs in the slot out of supervision (`Supervisor.ContainedIff`);
  the application makes one start only, so this does not come up (`Supervisor.OneStartContains`).

## Model

| member | source | states |
|---|---|---|
| `SchedulerRuns.StepKeepsHistory` | backend/src/agentos/scheduler.py:308-607 | No step of the engine (tick, phase 1 and 2 of a run, restart, sweep, edit, resume, run-now, heartbeat sync) rewrites a recorded occurrence: what it was recorded for never changes, a settled row never reopens, a queued row has not been started |
| `SchedulerRuns.RunKeepsHistory` | backend/src/agentos/scheduler.py:336-607 | The same over every run of steps; revisions and launches only grow |
| `SingleRun.AtMostOneRunning` | backend/src/agentos/scheduler.py:336-430 | Over every interleaving of ticks, executions, retries, sweeps, restarts and edits, without a parallel policy and without run_now, a schedule never has two running occurrences |
| `SingleRun.StepOneRunning` | backend/src/agentos/scheduler.py:336-430 | One step of that invariant |
| `SingleRun.FireOneRunningIff` | backend/src/agentos/scheduler.py:399-430 | Firing keeps it exactly when nothing is running or the policy does not start another run beside it; an explicit null policy starts one |
| `SingleRun.RunNowOneRunningIff` | backend/src/agentos/scheduler.py:779-812 | run_now skips the overlap check: it keeps the property exactly when nothing was running |
| `SingleRun.DrainOneRunning` | backend/src/agentos/scheduler.py:336-360 | The drain of queued rows starts none while another of the schedule runs |
| `QueueOrder.InstantsDecidedOnce` | backend/src/agentos/scheduler.py:399-430 | Whatever ticks, sweeps, edits, restarts and policies: the instants recorded for a schedule by its trigger are strictly increasing, so none is decided twice, and the stored next instant is beyond all of them |
| `QueueOrder.StartsInOrder` | backend/src/agentos/scheduler.py:336-430 | From the empty database, under skip and queue, the trigger-made occurrences of a schedule start in strictly increasing order of their instants |
| `QueueOrder.RunOrderly` | backend/src/agentos/scheduler.py:336-430 | No waiting occurrence is overtaken by a later one, over every run in which the policies are skip or queue |
| `QueueOrder.StepOrdered` | backend/src/agentos/scheduler.py:336-430 | One step of both |
| `QueueOrder.DrainInOrder` | backend/src/agentos/scheduler.py:336-360 | The drain reaches the queued rows of a schedule in the order of their instants: none of them is overtaken by what it starts, and every row it has passed had something of its schedule running |
| `QueueOrder.DrainStartsFirst` | backend/src/agentos/scheduler.py:336-360 | Of the due queued rows of a schedule the drain starts at most one, and that the first in the order |
| `QueueOrder.FireOvertakesIff` | backend/src/agentos/scheduler.py:399-430 | Firing overtakes a waiting row exactly when the policy starts a run beside it or instead of the open one (parallel, explicit null, or cancel_previous) |
| `Firing.FireHolds` | backend/src/agentos/scheduler.py:411-430 | With a row of the schedule still open, a due instant is recorded once, as skipped under skip and as waiting under queue, and nothing starts; under every other policy it starts |
| `Firing.FireStarts` | backend/src/agentos/scheduler.py:411-430 | With nothing open a due instant starts under every policy: one new running row, started now and launched |
| `Firing.FireCancels` | backend/src/agentos/scheduler.py:411-430 | Firing leaves the rows from before as they are, except that cancel_previous cancels and finishes one open row, a running one if there is one |
| `Firing.FireMovesOn` | backend/src/agentos/scheduler.py:399-430 | The schedule moves to the instant after the due one and remembers a start; without a revision it only loses its instant |
| `Firing.TickLaunches` | backend/src/agentos/scheduler.py:336-374 | A tick launches exactly the rows whose start it records, each once, each with a task that has not begun; no other task is touched |
| `Schedules.CronCountsOnce` | backend/src/agentos/scheduler.py:128-149 | The next instant of a cron trigger shows another wall-clock time than the one before, unless one time comes three times in a row, and is the first that does |
| `Cadence.IntervalKeepsBeat` | backend/src/agentos/scheduler.py:399-430 | An interval schedule left to its ticks: n ticks that find it due, however late, record exactly a, a+d, ..., a+(n-1)d, and a+n*d is stored next, whatever mix of run, queue, skip and cancel the policy chose |
| `Cadence.TickBeat` | backend/src/agentos/scheduler.py:336-374 | One tick moves a due schedule by exactly one instant and leaves others alone |
| `Cadence.FireRecordsInstant` | backend/src/agentos/scheduler.py:399-430 | One firing records the stored instant once, whatever the overlap policy does with it |
| `Cadence.GridClosedForm` | backend/src/agentos/scheduler.py:128-149 | The instants of an interval trigger in closed form |
| `Sweeps.SweepMovesOn` | backend/src/agentos/scheduler.py:720-773 | For any trigger and any stored instant: after a sweep the stored instant is in the future, or gone for a one-time trigger, exactly unless it equalled the clock before, and then nothing changes; at most CATCH_UP_MAX instants are considered, all past and none before the anchor |
| `Sweeps.SweepNext` | backend/src/agentos/scheduler.py:720-773 | Where an interval schedule goes next after a sweep: on its own grid if the gap fits and does not end on the clock, else counted from the clock |
| `Sweeps.PhaseKeptIff` | backend/src/agentos/scheduler.py:735-760 | The sweep keeps the interval phase exactly when the gap fits in CATCH_UP_MAX or ends on the grid anyway |
| `Sweeps.SweepRecords` | backend/src/agentos/scheduler.py:745-773 | What a sweep writes, policy by policy: catch_up queues all instants it looked at, run_once the last, skip one skipped row, an explicit null nothing |
| `Sweeps.CatchUpCompleteIff` | backend/src/agentos/scheduler.py:720-773 | catch_up leaves no missed instant undecided exactly when the gap fits and the clock is not itself an instant: an instant equal to now is dropped |
| `Sweeps.MissedCountBounds` | backend/src/agentos/scheduler.py:735-745 | The number of missed instants is the quotient rounded up |
| `Sweeps.MissedAreWalk` | backend/src/agentos/scheduler.py:735-745 | For any trigger, a sweep looks at the stored instant and those after it, each the next of the one before, up to the clock or the limit; for a one-time trigger only at the stored one |
| `Sweeps.SweepWrites` | backend/src/agentos/scheduler.py:745-773 | For any trigger, what a sweep writes policy by policy, row for row |
| `Sweeps.SweepAllMovesOn` | backend/src/agentos/scheduler.py:699-717 | After the start-up sweep no schedule it found late is late, and the others are as they were |
| `Retries.RunChains` | backend/src/agentos/scheduler.py:478-607 | Over every run: a retry links to an attempt that reads failed or cancelled, of the same schedule and revision, adds one to its number within the bound, and no occurrence is retried twice |
| `Retries.StepChains` | backend/src/agentos/scheduler.py:478-607 | One step of that invariant |
| `Retries.MaybeRetryChains` | backend/src/agentos/scheduler.py:588-607 | The retry itself: bounded, one per attempt, parked for the back-off times the attempt number |
| `Retries.ChainAddsUp` | backend/src/agentos/scheduler.py:540-607 | A chain of m attempts shares one schedule and one revision, counts 1, 2, ... m, and has been parked for at least b + 2b + ... + (m-1)b; for exactly that if and only if no time passed between the two clock readings of any attempt |
| `Retries.BackoffSum` | backend/src/agentos/scheduler.py:588-607 | That sum is b*m*(m-1)/2 |
| `Executions.FinishWrites` | backend/src/agentos/scheduler.py:540-571 | The end of a run writes outcome and time over the row, sets the failure counter to 0 after a success and to one more otherwise, leaves no task of it, and touches no other row or schedule |
| `Executions.FinishRetriesIff` | backend/src/agentos/scheduler.py:556-607 | A finished row gets a retry exactly when it did not complete, its policy is a bounded one and it was not the last attempt; then exactly one waiting row with the next number, due one back-off per attempt later |
| `Executions.EveryFinishRetriesIff` | backend/src/agentos/scheduler.py:556-607 | The same at the end of every execution of every run from the empty database |
| `Executions.CounterCounts` | backend/src/agentos/scheduler.py:556-571 | Over every run the failure counter is the number of unsuccessful ends since the last success; nothing else touches it |
| `Executions.StartedCanEnd` | backend/src/agentos/scheduler.py:478-571 | A started row whose task has not begun can run to any outcome, which is then written down |
| `Executions.PreambleSettles` | backend/src/agentos/scheduler.py:500-586 | A preparation that fails settles a row that still runs, without a retry and without counting a failure |
| `Executions.LostOutcomeWaits` | backend/src/agentos/scheduler.py:536-571 | An outcome that could not be written leaves its row running with no task, and nothing else is touched; the next restart marks it cancelled |
| `Executions.SettledStays` | backend/src/agentos/scheduler.py:478-571 | A row that is settled before its task has begun stays as it is for ever |
| `Executions.ReconcileSettles` | backend/src/agentos/scheduler.py:308-322 | Restart marks exactly the running rows cancelled and finished, and changes nothing else |
| `Executions.RestartFrees` | backend/src/agentos/scheduler.py:308-322 | After a crash and the next start no row reads running, so no schedule is held up |
| `Scheduler.Engine.Tick` | backend/src/agentos/scheduler.py:336-374 | The tick transaction as it runs: drain, fire, commit, launch; does to the tables what the step function says |
| `Scheduler.Engine.DrainQueued` | backend/src/agentos/scheduler.py:336-356 | The loop over due queued rows |
| `Scheduler.Engine.FireDueSchedule` | backend/src/agentos/scheduler.py:399-430 | Four overlap policies, the missing revision, and the advance of the stored instant |
| `Scheduler.Engine.FireDueSchedules` | backend/src/agentos/scheduler.py:358-369 | The loop over due schedules, each seeing the rows of the ones before |
| `Scheduler.Engine.LaunchAll` | backend/src/agentos/scheduler.py:370-374 | Each launched row becomes a live task after the commit |
| `Scheduler.Engine.RecordOccurrence` | backend/src/agentos/scheduler.py:433-455 | A new row at the end of the table |
| `Scheduler.Engine.CancelOccurrence` | backend/src/agentos/scheduler.py:458-470 | cancel_previous settles the row in place |
| `Scheduler.Engine.PersistOutcome` | backend/src/agentos/scheduler.py:540-571 | Phase 2 of a run: the outcome overwrites the row, counts failures, and may park a retry |
| `Scheduler.Engine.MaybeRetryFailed` | backend/src/agentos/scheduler.py:588-607 | The retry row |
| `Scheduler.Engine.ReconcileStale` | backend/src/agentos/scheduler.py:308-322 | Restart cancels exactly the running rows |
| `Scheduler.Engine.CollectMissed` | backend/src/agentos/scheduler.py:735-742 | The bounded walk over missed instants |
| `Scheduler.Engine.RecordMissed` | backend/src/agentos/scheduler.py:747-768 | The rows of the three missed-run policies |
| `Scheduler.Engine.SweepSchedule` | backend/src/agentos/scheduler.py:720-773 | The sweep of one schedule |
| `Scheduler.Engine.SweepMissed` | backend/src/agentos/scheduler.py:699-717 | The sweep over all overdue schedules |
| `Scheduler.Engine.SyncHeartbeatSchedule` | backend/src/agentos/scheduler.py:212-260 | The heartbeat projection: new revision only on change, instant cleared or kept as the code does |
| `SchedulerSteps.Revise` | backend/src/agentos/scheduler.py:172-193 | Afterwards the current revision of the schedule holds the configuration, and nothing else of the schedule has changed |
| `Revisions.ReviseAppends` | backend/src/agentos/scheduler.py:172-260 | A configuration that differs from the current one is appended under the next number of its schedule; the current one changes nothing; other schedules, their revisions, occurrences and tasks stay as they are |
| `Revisions.RevisionsNumbered` | backend/src/agentos/scheduler.py:172-193 | After any run the revisions of a schedule carry the numbers 1, 2, 3, ..., no two neighbours hold the same configuration, and the current revision is the last |
| `SchedulerRuns.EditKeeps` | backend/src/agentos/api/schedules.py:229-260 | An edit keeps all revisions and recorded work, and adds at most one revision |
| `Management.EditMoves` | backend/src/agentos/api/schedules.py:229-260 | What an edit does to the switch and the stored instant: kept when switched off or unchanged, counted from the clock with a new trigger, swept when switched on again |
| `Management.ResumeMoves` | backend/src/agentos/scheduler.py:720-773 | Resuming switches on and leaves the instant ahead of the clock unless it equalled it |
| `Management.SyncMoves` | backend/src/agentos/scheduler.py:212-260 | A heartbeat sync keeps the instant of a schedule that is on, has one and keeps its trigger; switched off it has none |
| `Management.CreateAdds` | backend/src/agentos/api/schedules.py:187-227 | A new schedule stands behind the others with its first revision and, if it is on, an instant ahead of the clock |
| `Management.RunNowStarts` | backend/src/agentos/scheduler.py:779-812 | A run by hand starts at once and does not move the schedule |
| `Management.PausedIsQuiet` | backend/src/agentos/scheduler.py:336-430 | A paused or archived schedule gets no new occurrences but retries, over every run that does not switch it on or run it by hand |
| `Redaction.RedactTextIsClean` | backend/src/agentos/redaction.py:71-99 | No secret pattern matches anywhere in what redact_text returns, however the engine chooses among matches |
| `Redaction.ReplaceAllCleans` | backend/src/agentos/redaction.py:71-83 | Later patterns never undo the work of earlier ones: after all of them none matches |
| `Redaction.ReplaceKeepsClean` | backend/src/agentos/redaction.py:71-83 | Replacing by one pattern creates no match of another |
| `Redaction.ReplaceCleans` | backend/src/agentos/redaction.py:71-83 | One leftmost pass leaves no match of its own pattern |
| `Redaction.ReplaceIsRedaction` | backend/src/agentos/redaction.py:71-83 | The result is a redaction of the input: text that starts no match is kept character by character, and a match is replaced where the text first allows one |
| `Redaction.CutIsClean` | backend/src/agentos/redaction.py:86-99 | Cutting afterwards never exposes a secret |
| `Redaction.RedactTextIdempotent` | backend/src/agentos/redaction.py:86-99 | Redacting again changes nothing and reports nothing |
| `Redaction.RedactTextFlags` | backend/src/agentos/redaction.py:86-99 | redacted holds exactly when a secret occurs, truncated exactly when the redacted text is too long; with both down the text is untouched |
| `Redaction.LimitCuts` | backend/src/agentos/redaction.py:86-99 | A limit cuts the redacted text and nothing else, and the truncated flag says exactly whether it did |
| `Redaction.RedactSecrets` | backend/src/agentos/redaction.py:71-83 | The loop over the patterns |
| `Patterns.SecretPatternShuns` | backend/src/agentos/redaction.py:22-68 | Each of the seven patterns shuns the marker: no match contains a bracket or fits inside its word |
| `Patterns.SecretKeyShuns` | backend/src/agentos/redaction.py:109-113 | So does the secret-key pattern |
| `Patterns.MatchHasNoBracket` | backend/src/agentos/redaction.py:22-68 | A pattern without brackets in its classes matches no text with one |
| `Patterns.MatchIsForeign` | backend/src/agentos/redaction.py:22-68 | A pattern with a letter foreign to the marker never matches inside it |
| `Payload.ScrubPresentable` | backend/src/agentos/redaction.py:140-217 | With the default allowed keys or the wider ones of a model-call event: what _scrub returns obeys depth, width and length limits, is free of secrets, and under a secret-named key stands only an allowed counter or an allowed metadata dictionary |
| `Payload.ScrubUnchanged` | backend/src/agentos/redaction.py:140-217 | With both flags down a JSON value comes back unchanged |
| `Payload.HarmlessKeyStays` | backend/src/agentos/redaction.py:136-176 | Redacting and cutting a harmless key cannot make it secret-named |
| `Payload.BoundIsPresentable` | backend/src/agentos/redaction.py:225-259 | For both sets of allowed keys, every result is the collapse marker, or fits the budget and is presentable at one of the tiers |
| `Payload.UnflaggedIsUnchanged` | backend/src/agentos/redaction.py:225-259 | If neither flag is set, a string-keyed JSON input is returned unchanged |
| `Payload.BoundTakesFirst` | backend/src/agentos/redaction.py:225-259 | The result is the payload at the first tier that fits, redacted if it was so at this or an earlier tier, truncated if it is or an earlier tier was tried |
| `Payload.BoundCollapses` | backend/src/agentos/redaction.py:225-259 | The collapse marker stands exactly for a payload that fits at no tier or cannot be serialised before one fits |
| `Payload.BoundUnchangedIff` | backend/src/agentos/redaction.py:225-259 | A JSON payload comes back unchanged and unflagged exactly if it is harmless under the first tier and fits the budget |
| `Payload.PlainIffHarmless` | backend/src/agentos/redaction.py:140-217 | No flag is raised exactly for a payload within depth, width, string and key limits, in which no secret occurs and no key is secret-named but the allowed ones |
| `Payload.DictScrubbed` | backend/src/agentos/redaction.py:155-189 | A dictionary keeps, in order, its entries within the width whose key is not secret, each scrubbed and under its redacted key, unless two of these keys fall together |
| `Payload.ListScrubbed` | backend/src/agentos/redaction.py:190-206 | A list is scrubbed item by item up to its width; its flags are those of the kept items, and it is truncated if there are more |
| `Payload.ScrubValue` | backend/src/agentos/redaction.py:140-217 | The recursion as it runs |
| `Payload.ScrubDict` | backend/src/agentos/redaction.py:155-189 | The dictionary loop: secret keys dropped, redacted keys, width limit counted before dropping |
| `Payload.ScrubOne` | backend/src/agentos/redaction.py:161-189 | One dictionary entry |
| `Payload.ScrubList` | backend/src/agentos/redaction.py:190-206 | The list loop |
| `Payload.BoundPayload` | backend/src/agentos/redaction.py:225-259 | The tier loop, with accumulating flags; the unserialisable branch ends in the collapse marker |
| `ArchiveNames.ValidateMemberName` | backend/src/agentos/runtime_installer.py:738-759 | The name check as it runs, rejecting in the same order |
| `ArchiveNames.AcceptedNameIsSafe` | backend/src/agentos/runtime_installer.py:738-759 | An accepted name is canonical, relative, without "..", with safe components, and new under case folding |
| `ArchiveNames.NameAcceptedIff` | backend/src/agentos/runtime_installer.py:738-759 | Accepted are exactly the names that are not empty, hold no NUL, do not start with a slash or backslash, consist of safe components, and are new under case folding |
| `ArchiveNames.PrefixIffAncestor` | backend/src/agentos/runtime_installer.py:832-836 | The string prefix test on canonical names decides whether one path is above the other |
| `ArchiveNames.PartsOfJoin` | backend/src/agentos/runtime_installer.py:755-758 | Joining components and splitting again gives them back |
| `LinkChains.ResolveLinkChain` | backend/src/agentos/runtime_installer.py:772-791 | The chain walk: accepted exactly when iterating the one-hop map reaches a non-link within the depth bound with every hop inside the stage |
| `LinkChains.FollowChain` | backend/src/agentos/runtime_installer.py:772-791 | The bounded loop with its set of seen names |
| `LinkChains.CyclesAreRejected` | backend/src/agentos/runtime_installer.py:779-791 | A chain that comes back to a name is rejected under every depth bound |
| `LinkChains.AcceptedIsInside` | backend/src/agentos/runtime_installer.py:786-791 | Whatever the walk accepts lies inside the stage |
| `LinkChains.HopStaysInside` | backend/src/agentos/runtime_installer.py:786-791 | A symbolic link counts from its own directory and a hard link from the root of the archive: so many levels up, then along its target |
| `LinkChains.HopClimbsOut` | backend/src/agentos/runtime_installer.py:786-791 | A target that climbs out of the archive leads nowhere, unless it happens to come back in |
| `LinkChains.AbsoluteHop` | backend/src/agentos/runtime_installer.py:786-791 | An absolute target counts from the file system root |
| `Walks.CycleNeverHalts` | backend/src/agentos/runtime_installer.py:779-791 | A walk that meets a place twice never ends |
| `Walks.HaltsOnce` | backend/src/agentos/runtime_installer.py:779-791 | A walk ends at most once |
| `FileTree.WriteAllBuilds` | backend/src/agentos/runtime_installer.py:838-871 | Writing entries with distinct paths onto the empty stage, in any order, succeeds exactly when they describe a tree, and then leaves exactly that tree |
| `FileTree.HoldsIsUnique` | backend/src/agentos/runtime_installer.py:838-871 | There is only one such tree |
| `TarExtract.ScanIsSound` | backend/src/agentos/runtime_installer.py:800-828 | The header scan sorts members by kind, loses none, and keeps to the limits on member count, member size and total size; names are safe and distinct under case folding |
| `TarExtract.ScanAcceptsIff` | backend/src/agentos/runtime_installer.py:800-828 | The scan accepts exactly the archives with few enough members and bytes, usable names, none alike under case folding, no file too big, and only files, directories and links of either kind |
| `TarExtract.TarPathsDistinct` | backend/src/agentos/runtime_installer.py:800-871 | The paths written for an accepted archive are pairwise distinct |
| `TarExtract.NothingBelowLinks` | backend/src/agentos/runtime_installer.py:832-836 | Nothing that is written lies below a link whose canonical name is not empty |
| `TarExtract.BelowLinksIff` | backend/src/agentos/runtime_installer.py:832-836 | In an accepted archive something that is written lies strictly below a link exactly when a link is called "." (its canonical name is empty) and some entry has a name |
| `TarExtract.DotLinkPasses` | backend/src/agentos/runtime_installer.py:738-836 | Such an archive passes every check: a symlink "." and a file |
| `TarExtract.WantedIffFile` | backend/src/agentos/runtime_installer.py:843-856 | The second pass picks exactly the regular files, each once |
| `TarExtract.Stage.ScanHeaders` | backend/src/agentos/runtime_installer.py:800-828 | The header scan writes nothing and gives the result of the scan function |
| `TarExtract.Stage.CheckLinks` | backend/src/agentos/runtime_installer.py:829-831 | Every link chain is followed before any write |
| `TarExtract.Stage.CheckNotUnderLink` | backend/src/agentos/runtime_installer.py:832-836 | No file or directory below a link |
| `TarExtract.Stage.MakeAllDirs` | backend/src/agentos/runtime_installer.py:838-839 | The directories |
| `TarExtract.Stage.PlaceOf` | backend/src/agentos/runtime_installer.py:848-856 | The second look at a member name |
| `TarExtract.Stage.WriteFiles` | backend/src/agentos/runtime_installer.py:841-871 | The second pass over the archive |
| `TarExtract.Stage.ExtractTar` | backend/src/agentos/runtime_installer.py:793-871 | Nothing is written unless every check has passed; then the writes succeed exactly when the archive describes a tree, and leave exactly the map from canonical names to contents |
| `InstallJob.Job.Run` | backend/src/agentos/runtime_installer.py:500-558 | At the end the rows read (completed or reused)*, then at most one failed or cancelled, then not started; a row is done exactly if all went well up to it; the job reads cancelled exactly if a cancellation was seen or raised before a failure ended the work, completed exactly when every row is done |
| `InstallJob.Job.Turn` | backend/src/agentos/runtime_installer.py:503-531 | One turn of the loop over dependencies: cancellation poll, earlier failure, reuse, or an install and its outcome |
| `InstallJob.Job.FinalizeCancelled` | backend/src/agentos/runtime_installer.py:159-166 | Pending rows of a cancelled job: the one in flight is cancelled, later ones never started |
| `InstallJob.Job.Halt` | backend/src/agentos/runtime_installer.py:541-558 | Cancellation settles all rows in that shape |
| `InstallSafety.StepKeeps` | backend/src/agentos/runtime_installer.py:422-600 | Every step of every worker, start, cancel, task end, shutdown and restart keeps: locks owned by live jobs, only verified builds installed, pointers naming them, rows telling the truth about pointers, unfinished files belonging to live jobs |
| `InstallSafety.MutualExclusion` | backend/src/agentos/runtime_installer.py:443-478 | Two running jobs never plan to install the same dependency |
| `InstallSafety.ReleasesOwn` | backend/src/agentos/runtime_installer.py:482-490 | The done callback releases exactly the locks its own job took |
| `InstallSafety.PointKeeps` | backend/src/agentos/runtime_installer.py:1045-1051 | The pointer switch keeps all of it |
| `InstallRuns.PointersNameVerified` | backend/src/agentos/runtime_installer.py:560-600 | At every moment of every run a pointer names an installed build whose digest and health checks passed |
| `InstallRuns.LocksExclude` | backend/src/agentos/runtime_installer.py:443-490 | At every moment a dependency is locked exactly when a live job plans to install it, and then by one job only |
| `InstallRuns.OnlyCompletedInstallsSwitch` | backend/src/agentos/runtime_installer.py:1009-1051 | From its start on, as long as a job lives: an install that is not completed has exactly the pointer from before the job, a completed one has the job's |
| `InstallRuns.CrashConsistent` | backend/src/agentos/runtime_installer.py:227-265 | A crash at any moment leaves pointers, builds and rows alone, and reconciliation marks a job that was running completed exactly when it planned an install and had completed every one, else interrupted |
| `InstallRuns.InstalledAllIff` | backend/src/agentos/runtime_installer.py:243-262 | Every planned install has a pointer with the job's id exactly when the lost memory said so |
| `InstallRuns.ReconciledRowsStayPending` | backend/src/agentos/runtime_installer.py:258-265 | A job reconciled to completed always shows its last install as pending: rows are not touched |
| `InstallRuns.ReconciledExample` | backend/src/agentos/runtime_installer.py:258-265 | A run from the empty installation that ends so: a first install crashes right after the pointer switch |
| `InstallRows.FinishedRowsInShape` | backend/src/agentos/runtime_installer.py:500-558 | Over every run with crashes and cancellations: a finished file has a pending row only if it reads completed; else its rows are (completed or reused)*, then at most one failed or cancelled, then not started, it reads completed exactly when every row is done, and a failed one names its failure |
| `InstallRows.CancelInDownloadFails` | backend/src/agentos/runtime_installer.py:503-687 | A cancel noticed between two chunks of a download leaves the row failed; the job then reads cancelled only if another dependency follows, else failed |
| `InstallCourse.LeftAloneInstalls` | backend/src/agentos/runtime_installer.py:500-600 | From any reachable world: a job that may start and whose version directories are free can run to its end, and then reads completed, with every planned install verified in place and pointed to by its own id, and every other row reused |
| `InstallCourse.CancelStopsAlways` | backend/src/agentos/runtime_installer.py:500-604 | After a cancellation or a shutdown, over every further run, the job completes and reuses nothing beyond the dependency it had come to |
| `InstallCourse.BuildsStay` | backend/src/agentos/runtime_installer.py:1009-1051 | No step of any run replaces or removes a version directory |
| `InstallCourse.UnbegunEnds` | backend/src/agentos/runtime_installer.py:482-498 | A job stopped before its task began reads cancelled after a cancellation and interrupted after a shutdown, and gives back its locks |
| `Emitter.PersistingEmitter.EmitEvent` | backend/src/agentos/pipeline.py:603-770 | One emission as it runs: buffers, flushes, early return of a known receipt, narration ids, approval flag |
| `Emitter.PersistingEmitter.PersistThinking` | backend/src/agentos/pipeline.py:639-655 | The thinking flush |
| `Emitter.PersistingEmitter.PersistNarration` | backend/src/agentos/pipeline.py:660-677 | The narration flush; blank text is dropped |
| `Emitter.PersistingEmitter.PersistCall` | backend/src/agentos/pipeline.py:680-724 | The outcome row and its receipt, once per call id |
| `EmitterRuns.ThinkingConserved` | backend/src/agentos/pipeline.py:630-655 | For any stream and scope: persisted thinking followed by the buffer is exactly the thinking received |
| `EmitterRuns.NarrationIsKept` | backend/src/agentos/pipeline.py:636-677 | The narration rows of a scope are, in order, the non-blank runs of tokens that a tool event ended; the buffer is the run not yet ended |
| `EmitterRuns.RowsNumbered` | backend/src/agentos/pipeline.py:586-724 | Row numbers are 1, 2, 3, ... without a gap |
| `Histories.HistoryIsTold` | backend/src/agentos/pipeline.py:603-770 | For every stream: the rows, read in order, are exactly the thinking a token or tool event ended, the non-blank narration a tool event ended, and the first end of every tool call, each in its scope |
| `Histories.AwaitsIff` | backend/src/agentos/pipeline.py:680-724 | The run waits for an approval exactly if some call has asked for one before it was settled |
| `Receipts.OneRowPerCall` | backend/src/agentos/pipeline.py:680-724 | A call has an outcome row exactly when a terminal event of it has come, and never two |
| `Receipts.ReceiptsTell` | backend/src/agentos/pipeline.py:680-734 | A receipt names the outcome row of the first terminal event and the last narration of its turn, which stands before it in the same scope |
| `Receipts.RepeatsReturnTheReceipt` | backend/src/agentos/pipeline.py:684-685 | The first terminal event hands back a receipt, and every later event of the call, whatever came in between, the same one |
| `Receipts.NarrationOfTurn` | backend/src/agentos/pipeline.py:728-731 | The narration id kept for a scope is that of the last narration in its current turn |
| `Scopes.ScopesIndependentIff` | backend/src/agentos/pipeline.py:618-690 | A scope gets from an interleaved stream the history it would have had alone exactly when every call whose end it reports was first ended by the scope itself |
| `Scopes.SharedCallIsLost` | backend/src/agentos/pipeline.py:680-690 | The smallest stream that fails: a second scope's outcome is taken for a repetition |
| `Attachments.DedupeTarget` | backend/src/agentos/pipeline.py:187-201 | The unbounded search returns the first free candidate within one more probe than there are names |
| `Attachments.CandidateInjective` | backend/src/agentos/pipeline.py:196-201 | Different numbers give different names |
| `Attachments.TargetIsOneName` | backend/src/agentos/pipeline.py:192-198 | Whatever the uploaded name, the target is a single name; it is ".." exactly when the upload is called so and the first candidate is taken |
| `Attachments.Workspace.Prepare` | backend/src/agentos/pipeline.py:204-257 | The loop: one record per attachment, each handled on the disk left by the one before |
| `Attachments.Workspace.HandleOne` | backend/src/agentos/pipeline.py:213-255 | Links are not stored, bad base64 and failed writes are reported, else the bytes go to the first free name |
| `Attachments.Workspace.Save` | backend/src/agentos/pipeline.py:243-250 | The write and how it may fail |
| `Attachments.NothingIsOverwritten` | backend/src/agentos/pipeline.py:204-257 | However the writes end: existing files keep their contents, each stored attachment is on disk with its own bytes, and no two share a name |
| `Attachments.NothingElseAppears` | backend/src/agentos/pipeline.py:204-257 | A name that appears is the directory or the target of an attachment whose write began |
| `TraceFilter.Visible` | frontend/src/components/RunTimeline.tsx:62-105 | The two passes give exactly the rows the filter defines, in order |
| `TraceFilter.KeptRows` | frontend/src/components/RunTimeline.tsx:64-76 | The first pass keeps exactly the hits and everything above them |
| `TraceFilter.KeepAbove` | frontend/src/components/RunTimeline.tsx:70-75 | The climb may stop at a row kept before |
| `TraceFilter.BelowCollapsed` | frontend/src/components/RunTimeline.tsx:92-101 | The second climb finds a collapsed ancestor exactly when there is one |
| `TraceFilter.ParentIsVisible` | frontend/src/components/RunTimeline.tsx:62-105 | No row is shown without its parent |
| `TraceFilter.HitsAreVisible` | frontend/src/components/RunTimeline.tsx:62-105 | A hit is shown unless it lies below a collapsed row, which a search ignores; an event row is shown only for a hit it is or has below it |
| `TraceFilter.SectionIsNotEmpty` | frontend/src/components/RunTimeline.tsx:79-86 | A post-run section is shown exactly when it has a hit below it |
| `TraceFilter.LeafIsShownIff` | frontend/src/components/RunTimeline.tsx:62-105 | A leaf is shown exactly if it is no envelope or events are asked for, and it matches the search, or there is none and nothing above it is collapsed |
| `TraceLinks.LinkParent` | frontend/src/lib/traceLayout.ts:117-134 | The parent a row gets, with the seen-set climb that always ends |
| `TraceLinks.TreeHasNoCircle` | frontend/src/lib/traceLayout.ts:117-134 | Whatever parent ids were recorded, going up the resulting tree ends |
| `TraceLinks.LinkIsKeptIff` | frontend/src/lib/traceLayout.ts:117-134 | A recorded parent is kept exactly when it is an event and the links come to an end |
| `TraceGroups.GroupRows` | frontend/src/components/RunTimeline.tsx:111-162 | Placeholders and splices in descending slot order give what one walk from left to right gives: each group stands where its first member stood |
| `TraceGroups.CollectGroups` | frontend/src/components/RunTimeline.tsx:116-133 | The first pass: placeholders, slots and buckets |
| `TraceGroups.SpliceGroups` | frontend/src/components/RunTimeline.tsx:134-160 | The second pass: slots still to come stay valid |
| `TraceGroups.PassesFold` | frontend/src/components/RunTimeline.tsx:111-162 | The two passes together are the fold |
| `TraceGroups.FoldPermutes` | frontend/src/components/RunTimeline.tsx:111-162 | Every visible row appears exactly once, as a row or as a member of one group |
| `TraceGroups.GroupStands` | frontend/src/components/RunTimeline.tsx:111-162 | Row by row the folded list only grows at its end: a later member adds nothing, a lone row adds itself, the first of a group adds one group row with all members, followed by them when the group is open |
| `TraceGroups.FoldsIff` | frontend/src/components/RunTimeline.tsx:111-127 | Folded are exactly the leaves inside the window that are no envelopes and have a label |
| `TraceGroups.MembersHave` | frontend/src/components/RunTimeline.tsx:116-133 | A group holds exactly the rows with its id |
| `TraceGroups.ParentsCollideIff` | frontend/src/components/RunTimeline.tsx:127 | Two different parents can share a group id, under some keys, exactly when one parent id continues the other behind the separator |
| `TraceGroups.GroupsAreSiblings` | frontend/src/components/RunTimeline.tsx:122-127 | If their parents do not continue each other, rows share a group exactly when they share parent and key |
| `TraceGroups.ProducedGroupsAreSiblings` | backend/src/agentos/services/observability_timeline.py:398-516 | In the traces the gateway produces (tool calls without a parent id, other events below the root or an event) a group is always the same-key leaves of one parent, whatever tools and call ids are called |
| `RotatingLogs.RotatingLog.RotateFiles` | frontend/src-tauri/src/gateway.rs:139-165 | The rename loop moves every backup up by one, drops the last and leaves larger numbers alone; without backups the log is truncated |
| `RotatingLogs.RotatingLog.WriteBytes` | frontend/src-tauri/src/gateway.rs:167-178 | Rotate first if the write would pass the limit, then append |
| `RotatingLogs.RotatingLog.constructor` | frontend/src-tauri/src/gateway.rs:116-133 | Opening counts what is there and rotates a full log |
| `RotatingLogs.ContentsAreSuffix` | frontend/src-tauri/src/gateway.rs:115-178 | After any writes, backups from oldest to newest and then the log are a suffix of the initial contents and everything written |
| `RotatingLogs.UnlimitedLosesNothing` | frontend/src-tauri/src/gateway.rs:167-178 | Without a limit nothing is lost |
| `RotatingLogs.WriteLosesOldest` | frontend/src-tauri/src/gateway.rs:139-178 | One write conserves all bytes but those of the oldest backup, and loses these only when it rotates |
| `RotatingLogs.Parameters` | frontend/src-tauri/src/gateway.rs:107-178 | The byte counter is the length of the log |
| `RotatingLogs.NoBackupBeyond` | frontend/src-tauri/src/gateway.rs:139-165 | No write makes a backup beyond backup_count: what stands at larger numbers is what was there before |
| `RotatingLogs.SizesBounded` | frontend/src-tauri/src/gateway.rs:115-178 | A file filled since opening holds at most the limit or one oversized write, and two neighbouring files hold more than the limit |
| `RotatingLogs.ContentsRotated` | frontend/src-tauri/src/gateway.rs:139-165 | Contents after a rotation |
| `Supervisor.ErrorsAreSpontaneous` | frontend/src-tauri/src/gateway.rs:238-456 | Over every interleaving of starts, stops and monitors: the reported error is never about a process that stop() killed or that still runs, and a child in the slot is watched |
| `Supervisor.DeathIsReported` | frontend/src-tauri/src/gateway.rs:384-406 | A child that died with no stop requested is reported by the next monitor to wake |
| `Supervisor.StopLeavesNothing` | frontend/src-tauri/src/gateway.rs:431-456 | After stop() only children of starts still under way keep running, and those that had escaped; none has if no start pushed a running child out |
| `Supervisor.StopSilences` | frontend/src-tauri/src/gateway.rs:384-456 | From a stop request to the next start no death is reported; the start forgets the last error |
| `Supervisor.StepEscapes` | frontend/src-tauri/src/gateway.rs:363-374 | A child escapes supervision by a start that stores another over it while it runs, and in no other way |
| `Supervisor.ContainedIff` | frontend/src-tauri/src/gateway.rs:363-374 | Over every interleaving: at every moment each running child is in the slot or with a start under way, exactly when no start stores its child over one that still runs |
| `Supervisor.OneStartContains` | frontend/src-tauri/src/lib.rs:181-184 | With the one start the application makes, nothing ever escapes |
| `Permissions.CapabilitiesTab.UpdateMode` | frontend/src/components/SettingsOverlay.tsx:695-725 | The named capability gets the mode asked for, by grant, deny or inheritance; no other effective mode changes |
| `Permissions.CapabilitiesTab.UpdateServerMode` | frontend/src/components/SettingsOverlay.tsx:727-743 | A server mode reaches exactly its tools without an entry of their own |
| `Permissions.CapabilitiesTab.SetAllModes` | frontend/src/components/SettingsOverlay.tsx:759-769 | Enabling all gives each its default mode; disabling all leaves tools of a granted server with what the server was granted |
| `Permissions.SaveCapabilities` | frontend/src/components/SettingsOverlay.tsx:602-673 | The list of grants written, loop by loop |
| `Permissions.GroupServers` | frontend/src/components/SettingsOverlay.tsx:627-633 | Tools grouped by server in order of appearance |
| `Permissions.LoadCapabilities` | frontend/src/components/SettingsOverlay.tsx:482-514 | The state read back from a list of grants |
| `Permissions.RoundTripIff` | frontend/src/components/SettingsOverlay.tsx:482-673 | Saving and loading keeps what a listed capability may do, unless it is a tool of a server with the id "other" that only has what that server was granted |
| `Permissions.OwnRoundTrip` | frontend/src/components/SettingsOverlay.tsx:482-673 | A listed capability keeps its own mode and its denial; its approval flag survives exactly with a mode of its own that is not denied |
| `Permissions.ServerRoundTrip` | frontend/src/components/SettingsOverlay.tsx:482-673 | A server with listed tools keeps its mode and whether it asks for approval (as set, else by the reach of its tools), unless it has no mode or the id "other": then neither is stored |
| `Permissions.SavesNothingElse` | frontend/src/components/SettingsOverlay.tsx:602-673 | Nothing is written for tools and servers that are not listed |
| `Permissions.OwnGrantIff` | frontend/src/components/SettingsOverlay.tsx:602-673 | The grant written for a listed capability: a refusal if it is denied, else its own mode as loaded always or on demand, with its approval flag |
| `Permissions.LoadedMode` | frontend/src/components/SettingsOverlay.tsx:482-514 | A capability with a stored grant may do what the grant means: nothing when off, always or on demand as it says, and for a grant from before that choice on demand for a tool and always for a built-in |
| `Permissions.LoadedIsClean` | frontend/src/components/SettingsOverlay.tsx:482-514 | What is loaded stores a mode only where there is one |
| `Fanout.Hub.Broadcast` | backend/src/agentos/notifications.py:42-55 | Every subscriber's queue takes the payload as if it were alone |
| `Fanout.Hub.Subscribe` | backend/src/agentos/notifications.py:32-35 | A new, empty queue |
| `Fanout.NothingLostUnmarked` | backend/src/agentos/notifications.py:42-55 | For every run of broadcasts and reads: what arrives is in order; either nothing was lost and delivered plus queued is all that was sent, or the marker of the latest loss is delivered or queued and everything after it is there; the queue never exceeds 256 |
| `Fanout.KeepingUpLosesNothing` | backend/src/agentos/notifications.py:42-55 | A subscriber that is never more than 256 payloads behind gets every payload in order |
| `Fanout.PutIsStep` | backend/src/agentos/notifications.py:42-55 | The numbered queue of that theorem is the hub's queue |
| `CommitFeed.BroadcastsAreCommits` | backend/src/agentos/notifications.py:76-201 | Whatever sessions write, commit and roll back: the payloads broadcast are those of the committed transactions in order, each notification once, and exactly those in the table |
| `CommitFeed.Fires` | backend/src/agentos/notifications.py:85-94 | A commit broadcasts every armed payload once, in order, and leaves no rollback listener behind |
| `CommitFeed.Disarms` | backend/src/agentos/notifications.py:89-94 | A rollback removes every armed listener |
| `CommitFeed.StepKeeps` | backend/src/agentos/notifications.py:76-201 | One step |
| `RunEvents.RunContext.AppendEvent` | backend/src/agentos/run_manager.py:116-126 | The next number, and every waiting reader woken with it |
| `RunEvents.RunContext.WaitForEvent` | backend/src/agentos/run_manager.py:128-138 | The newest number beyond the reader's own, else a place among the waiters |
| `RunEvents.RunContext.TimeOut` | backend/src/agentos/run_manager.py:138-144 | A timeout cancels the future and leaves it listed until the next event |
| `RunEvents.StreamSendsAll` | backend/src/agentos/api/chat.py:352-389 | A client that is not ahead of the buffer gets the events after its last one in order, none left out and none twice, under every interleaving; a stream that closes by itself, or waits, has sent all |
| `RunEvents.StreamCatchesUp` | backend/src/agentos/api/chat.py:352-389 | A stream that is in order and left to itself sends everything buffered, and then waits or closes |
| `RunEvents.ReconnectContinues` | backend/src/agentos/api/chat.py:343-389 | A client that breaks off at any moment of one run of the stream and connects again with its last number gets, over both runs, the numbers after its first one in order, without a gap or a repeat |
| `RunEvents.WokenBeyondIff` | backend/src/agentos/run_manager.py:128-144 | What wait_for_event promises: the number a waiting reader is woken with is beyond its own exactly when the reader was not ahead of the newest event at its call |
| `RunEvents.ServedIff` | backend/src/agentos/api/chat.py:343-389 | A client is sent the numbers after its own, in order, without a gap or a repeat, in every run of its stream, exactly when it is at most one ahead of the buffer or the run has settled or ended when it connects |
| `RunEvents.AheadGets` | backend/src/agentos/api/chat.py:343-389 | What any client ahead of the buffer gets: numbers in order without a gap, starting after some m that was not buffered at its connection and that it claims to have; nothing beyond its own number is lost |
| `RunEvents.AheadRepeats` | backend/src/agentos/api/chat.py:343-389 | For a live run and a client two or more ahead: a run of the stream that sends it a number it has |

## Left out

* Cron arithmetic, time zones and daylight saving: the next instant of a cron trigger is only assumed to be later; previews of occurrences.
* Configurations are compared as values; the program compares their SHA-256 content hashes.
* SQL itself, migrations, hard deletion of schedules, error texts, notes and notification side effects of the scheduler; the `run_id` column.
* Liveness: the theorems are safety and bounded progress; nothing says that a queued run eventually starts. The clock readings of a run are assumed not to go backwards where order over time is claimed.
* The start of a schedule's life through the API other than create, edit, pause, resume, archive and run-now; duplication is a create.
* Zip extraction: the checks are those of the tar scan on one list, and `FileTree.WriteAllBuilds` covers its order of writes; modelling it would repeat the tar development.
* Materialising links after the files are written, file modes, chunked reading and the cancellation polls inside extraction, `_select_root`, and the health and version checks themselves.
* Downloads, redirects, URL validation, planning and consent of installs; a plan enters as its list of dependencies. Unreadable or oversized job and pointer files, and the cap on job files.
* An install job that fails outside a dependency's own handling (a job file that cannot be written) is not modelled.
* The pruning of payloads for particular capabilities (`project_args`, `project_result`), URL sanitising; floating-point payload numbers are opaque values.
* Emissions of one run that overlap at an await: the emitter's theorems are about emissions one after the other. The approval notification task and the fields of an outcome row other than call id and status.
* Windows paths, Unicode normalisation and encoding errors of attachment names and texts; other writers in the workspace between the probe and the write.
* Aggregated times and bar geometry of group rows, the slow-row highlighting, and rendering; the fold is modelled for the case that grouping is on and no search is active, the other case returns the rows as they are.
* TraceLinks.LinkParent: event ids are taken to be unique and non-empty, as the database makes them; post-run sections are part of TraceFilter's layout assumptions, not of the link pass.
* Failing renames, opens and writes of log files, 64-bit overflow of the byte counter; the gateway's executable lookup, environment, process groups, and the job objects that on Windows would end an escaped child with the application; poisoned locks and failing process queries in the monitor.
* The default permissions of an agent without a capability list, and failed saves in the settings dialog.
* The unread state, pruning and delivery records of notifications, and nested transactions (savepoints).
* RunEvents: run status transitions, the delayed cleanup of finished runs, and the effects of stopping a run on terminals and browsers.
