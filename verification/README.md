# CronFoundry, verified

CronFoundry fires skills on cron schedules: a single scheduler loop reads and writes a
`schedule` and a `run` table in Postgres, runners report back over HTTP, operators pause and
resume, and a repository sync rewrites the schedules. This project models that core and the
self-contained algorithms around it in Dafny and proves what they promise over every input,
every interleaving and every reachable state. `dafny verify dfyconfig.toml` checks all of it.

## How it is built

**The scheduler** (`schema`, `cron`, `overlap`, `machine`, `listing`, `lifecycle`, `ledger`,
`firetimes`, `stale_sync`, `dispatching`, `relaunch`, `bearers`, `lifebound`, `sweeping`,
`autopause`, `evidence`, `pausing`, `tick_record`, `tick`, `handlers`, `witnesses`, with
`ranking` for sorted lists). `Schema` has the two tables and one function per guarded SQL statement. `Machine` is a
transition system: each statement of the tick loop and of everyone else is one atomic step,
the loop has a control state that says between which two statements it stands, every statement
may fail and the loop may crash at any point. The state carries a record of what happened:
fresh scheduled rows, launches, committed auto-pause audits. The theorems are about every
legal sequence of steps from an empty database. `TickCode` is the loop itself, written as
methods that change the tables with everyone else running in between; which of its calls fail
is an arbitrary function given to it. Each method proves that what it did is a legal run of
the machine, so the theorems hold of the code, and says how the work on each row ended, why,
and from which state on record the overlap policy was applied. What the statements read and
write is stated once more over the columns themselves (`Overlap`, `Listing`, `Sweeping`,
`Pausing`), apart from the functions that compute it. `Handlers` does the same for
run-now, finalize and the auto-pause evaluation, whose reads and whose UPDATE are statements
of their own with everyone else running in between.

**Sync** (`sync`, `sync_laws`). The nested loops over manifest, skills and schedules, over
copies of the tables that replace them only at commit; their result is characterised row by
row, and a successful sync is shown to be a step the machine allows. A sync computes fire
times from a clock reading that may be older than its write; `StaleSync` proves exactly which
re-armed times are harmless. `destinations` has the checks on where a schedule publishes.

**MCP** (`mcp_client`, `mcp_manager`). The client is a state machine over its goroutines'
steps (many senders, one reader, cancellation, write errors, stream end); the manager's
parallel dispatch, tool names and ring buffer are methods on arrays.

**Runner and chat** (`agent_loop`, `phases`). Both tool loops against any provider and any
goroutine order; `Run`'s phase events and the web timeline that reads them back.

**Text, trees and small protocols** (`text`, `bashquote`, `replacing`, `redact`, `yamledit`, `yaml_append`,
`secretrefs`, `streamcap`, `tokencache`). Bash quoting is proved against a reader that follows
section 3.1.2.4 "ANSI-C Quoting" of the Bash Reference Manual; request ids follow section 5 of
the JSON-RPC 2.0 Specification.

## Assumptions

- One scheduler loop; the clock of the database does not go backwards; no two run rows share
  a `created_at`.
- `NextFire` returns a time strictly after its base, as documented
  (internal/scheduler/cron.go), or an error. A cron expression that never fires again is one
  that returns an error here.
- A statement that fails changed nothing. One that took effect but whose reply was lost is the
  success step followed by a failure of the next statement.
- A sync commits in one step. Its clock reading may lie any time before; the readings it
  takes for its schedules are represented by the earliest.
- The UPDATE of an auto-pause evaluation, its audit entry and its commit are one step.
- Token hashes do not collide, and a bearer is a token that was handed to the dispatcher.
- Schedule and run ids are never used twice.

## What the code does not promise

Each of these is a lemma: a concrete run or input, or the exact condition under which the
promise holds.

- `StaleSync.SyncIsSafeIff`: a sync that read the clock before a fire and writes after it can
  re-arm a schedule onto a time already fired. It is harmless if and only if everything fired
  or in hand since the re-armed time has, or will have, its row standing, and no such row is
  about to be deleted; `FireTimes.AheadIsCurrent`: it is enough that the time still lies ahead
  when it is written. `Witnesses.StaleSyncReusesAFireTime` is a run in which one fire time gets
  two fresh rows.
- `Relaunch.LaunchableIff`: from a state in which the loop idles, a run is launched, or
  launched again, in some continuation if and only if its row stands and is pending.
  `Dispatching.LaunchedTwiceOnlyIfUnmarked`: so only if marking it running did not complete;
  `Witnesses.RunLaunchedTwice` is such a run.
- `Evidence.LatePauseIsFairIff`: an evaluation pauses on failures since the schedule was last
  enabled if and only if they were that when it listed them and nobody has resumed the schedule
  since; its UPDATE does not look. `Witnesses.LatePauseOnOldFailures` is a run in which a
  schedule just resumed is paused again on the old failures.
- `Witnesses.ManualRunsBeside`: manual runs bypass the overlap policy, so exclusion is stated
  among scheduled runs.
- `Witnesses.SyncEnablesWithoutResuming`, `Witnesses.SyncedCanBePausedAtOnce`: a sync enables a
  schedule without moving `last_enabled_at`, so the fresh count is stated for an operator's
  resume.
- `Witnesses.PausedRowsAreSwept`: a queued row of a paused schedule is still swept.
- `Redact.NeverLeaksIff`: among secrets without brackets, a list is safe for every text if and
  only if no secret is part of the word REDACTED.
- `BashQuote.RoundTripIffNulFree`, `BashQuote.SaveComesBackIffNulFree`: a value with a NUL byte
  is cut there when bash reads it; every other value comes back.
- `BashQuote.AppendedIsReadIff`: after a file was cut short, what is appended is read as lines
  of its own if and only if the file was left empty or ending in a newline;
  `BashQuote.TornWriteSwallowsTheNextLine` is an instance.
- `YamlAppend.KeysStayDistinctIff`: a `schedules:` key that holds no sequence (an empty one,
  say) gets a second `schedules:` key beside it.
- `YamlAppend.SecondAppendIsADuplicate`: a schedule with an empty name is never seen as a
  duplicate.
- `McpManager.OfferedNameComesBack`: a server name that contains `__` or ends in `_` is read
  back wrongly.
- `StreamCap.AdmittedIffRoom`, `StreamCap.RejectedWithNoStreamOpen`: a rejection still under
  way can turn away a request although no stream is open.
- `TokenCache.HonestyBreaksIff`, `TokenCache.BackwardsExpiryServesADeadToken`: a token written
  alone, older than the expiry beside it, is served after its death.
- `SecretRefs.ManifestIsScopeIff`: the token scope leaves out secrets named only in `mcp_env`.

## Model

| member | source | states |
|---|---|---|
| `FireTimes.FireTimesNeverReused` | internal/scheduler/tick.go:96-150 | over any interleaving of ticks, syncs, pauses and resumes, with any statement failing, the loop crashing anywhere and syncs that read the clock long before they write, as long as each re-arms harmlessly: each (schedule, fire time) gets a fresh row at most once and a schedule's fresh fire times strictly increase, although skipped rows are deleted |
| `StaleSync.SyncIsSafeIff` | internal/sync/upsert.go:178-214 | after a sync no continuation breaks the order of the fires if and only if every time it re-armed is harmless at its write |
| `FireTimes.AheadIsCurrent` | internal/sync/upsert.go:250-256 | a re-armed time that still lies ahead when it is written is harmless |
| `FireTimes.PromptSyncIsCurrent` | internal/sync/upsert.go:250-256 | so a sync that writes in the instant it read the clock is harmless |
| `FireTimes.FireInvKept` | internal/db/gen/schedule.sql.go:600-636 | every step keeps the fire-time invariant: next_fire_at and the schedules in hand never fall back behind a fired time whose row is gone |
| `FireTimes.InsertKeepsClear` | internal/db/gen/run.sql.go:377-393 | InsertRun with its conflict clause keeps that invariant, whether it finds a row or makes one |
| `FireTimes.AdvanceKeepsClear` | internal/db/gen/schedule.sql.go:583-588 | advancing next_fire_at keeps it, although the row may have been re-armed or deleted meanwhile |
| `FireTimes.DiscardKeepsClear` | internal/scheduler/tick.go:167-172 | deleting a skipped row keeps it: the fire time stays used up |
| `Ledger.LedgerKept` | internal/db/gen/run.sql.go:377-393 | every step, whatever a sync does, keeps: ids and creation instants are unique, every scheduled row is on record as a fire, and what the loop has in hand matches the rows |
| `Lifecycle.StatusOnlyAdvances` | internal/db/gen/run.sql.go:24-37 | over whole runs a row keeps its identity, its status only goes pending to running to terminal or pending to terminal, and a terminal row never changes status or finish time |
| `Lifecycle.StepFollows` | internal/db/gen/run.sql.go:760-767 | the same of one step, whichever statement it is, finalize racing with mark-running included |
| `Lifecycle.GoneForGood` | internal/db/gen/run.sql.go:14-16 | a deleted row's id never comes back |
| `Lifecycle.OnlyDispatchedRunsFinalize` | internal/api/auth.go:33-70 | a run never handed to the dispatcher is pending or was failed by the sweep, and no finalize for it is possible |
| `Lifecycle.PlaceholderRefusesBearers` | internal/api/trigger.go:70-88 | a row whose hash column holds the `pending:` placeholder admits no token |
| `Lifecycle.OneBearerPerRow` | internal/api/auth.go:48-64 | in every reachable state a row admits at most one of the tokens handed out |
| `Bearers.AdmittedWasSigned` | internal/api/auth.go:48-64 | in every reachable state a row lets in only a token the loop signed for it |
| `Bearers.LaunchedIsLetIn` | internal/scheduler/tick.go:216-289 | a runner that was launched is let in for as long as its row stands and the loop signs no other token for the run |
| `Lifecycle.EndInvKept` | internal/scheduler/tick.go:216-289 | every step keeps: running rows were handed to the dispatcher, terminal rows were ended by the sweep or by a token of their own that was handed out |
| `Dispatching.RunningIsOldestActive` | internal/scheduler/tick.go:300-329 | for a schedule never on concurrent, a running scheduled run is the only one running and the oldest of the active scheduled ones; in fire time too if fire times are not reused |
| `Dispatching.OneRunningPerSchedule` | internal/scheduler/overlap.go:38-58 | a schedule kept on skip or queue never has two scheduled runs running, in any reachable state |
| `Dispatching.LaunchedInFireOrder` | internal/scheduler/tick.go:154-182 | runners of one such schedule are launched in creation order, or the same run again; in fire-time order if fire times are not reused |
| `Dispatching.LaunchedAtMostOnce` | internal/scheduler/tick.go:275-287 | if mark-running never errors, every run is launched at most once |
| `Dispatching.LaunchedTwiceOnlyIfUnmarked` | internal/scheduler/tick.go:275-287 | a run launched twice is one whose mark-running statement did not complete |
| `Relaunch.LaunchableIff` | internal/scheduler/tick.go:300-377 | from every reachable state with an idle loop, some continuation launches a run, launched before or not, if and only if its row stands and is pending |
| `Relaunch.PastForGood` | internal/scheduler/tick.go:313-329 | a run that is not pending and not in the loop's hands is never launched again |
| `Relaunch.PendingCanBeLaunched` | internal/scheduler/tick.go:300-377 | whatever stands before a pending run can be finalized or swept away, and then the drain launches it |
| `Witnesses.RunLaunchedTwice` | internal/scheduler/tick.go:275-287 | a legal run in which the loop crashes before mark-running and the next tick launches the same row again |
| `Witnesses.ManualRunsBeside` | internal/scheduler/tick.go:314-316 | a legal run in which a manual run is running beside a scheduled one under skip |
| `Witnesses.StaleSyncReusesAFireTime` | internal/sync/upsert.go:178-214 | a legal run in which a sync re-arms onto a time fired and skipped since it read the clock, and that time gets a second fresh row |
| `Witnesses.PausedRowsAreSwept` | internal/db/gen/run.sql.go:737-747 | in every state the sweep fails an overdue row of a paused schedule |
| `Pausing.ToggleSets` | internal/db/gen/schedule.sql.go:473-483 | the schedule is enabled exactly as asked; a resume clears auto_paused_at, a pause leaves it; the window moves only when a disabled schedule is resumed; nothing else changes |
| `Pausing.PausedIsLeftAlone` | internal/db/gen/schedule.sql.go:274-285 | after a pause, once the loop has nothing of the schedule in hand, no run of it is fired or launched, manual ones included, until it is enabled again |
| `Witnesses.SyncEnablesWithoutResuming` | internal/db/gen/schedule.sql.go:609-635 | in every state a sync can enable a paused schedule and leaves last_enabled_at and auto_paused_at |
| `Witnesses.SyncedCanBePausedAtOnce` | internal/db/gen/schedule.sql.go:609-635 | so the failures from before the sync can pause it again at once |
| `Dispatching.EverConcurrentIsSeen` | internal/scheduler/overlap.go:38-58 | a schedule on another policy in every state of a run counts as never concurrent |
| `Dispatching.DispatchInvKept` | internal/scheduler/tick.go:154-197 | every step keeps: what the loop is about to launch has no unfinished older rival and nothing newer of its schedule was launched |
| `LifeBound.AgedRunsAreTerminal` | internal/db/gen/run.sql.go:737-747 | with sweeps at most g apart when a run is marked and a fixed timeout, no run is unfinished after a sweep once it is older than 2·(timeout+300 s)+g, whatever failed or crashed before |
| `LifeBound.YoungAlways` | internal/db/gen/run.sql.go:737-747 | in every reachable state a pending row was within the tolerance at the last sweep and a running one when it started |
| `Sweeping.SweepIsFair` | internal/db/gen/run.sql.go:735-747 | over the columns: a row whose started_at, or created_at where it has not started, lies within timeout + 300 s is unchanged by a sweep, and so is one that is over; every other row with a schedule is failed at that instant, and nothing else of it changes |
| `Sweeping.MarkedRunsAreLeftAlone` | internal/db/gen/run.sql.go:735-767 | over whole runs: a run marked running at some instant is not failed by a sweep until timeout + 300 s have passed since, however long it had waited |
| `Sweeping.WaitingRunsAreLeftAlone` | internal/db/gen/run.sql.go:735-747 | nor one still pending until they have passed since it was created |
| `AutoPausing.AuditsMatchFlips` | internal/api/finalize_autopause.go:80-107 | over whole runs the committed auto-pause audits are exactly the enabled-to-disabled flips, in order, each with its instant and its threshold |
| `AutoPausing.FlipNeedsStreak` | internal/api/finalize_autopause.go:63-87 | at a flip there are threshold-many different failed scheduled runs, all created in the window that was read |
| `AutoPausing.PromptFlipNeedsStreak` | internal/db/gen/run.sql.go:527-536 | if nothing happened between the reads and the UPDATE, they are the newest scheduled runs since last_enabled_at that are over, as many as the schedule's own column says, or five |
| `AutoPausing.ResumeStartsAFreshCount` | internal/db/gen/schedule.sql.go:473-483 | after an operator's resume, an auto-pause by an evaluation that read its window since is preceded by threshold-many different failed scheduled runs created since the resume |
| `AutoPausing.PromptReadsSince` | internal/api/finalize_autopause.go:50-69 | and one that acts on what holds at its UPDATE has read its window since |
| `Evidence.LatePauseIsFairIff` | internal/api/finalize_autopause.go:50-87 | with everyone running between the listing and the UPDATE: the failures acted on date from after the last resume if and only if they did when listed and nobody resumed in between, that is, last_enabled_at has not moved |
| `Evidence.TerminalStays` | internal/db/gen/run.sql.go:14-16 | over whole runs a terminal row stands, as it is, for as long as its schedule exists: the rows the loop deletes were never handed out |
| `Evidence.ReadingStands` | internal/api/finalize_autopause.go:63-81 | so the runs an evaluation listed, and its verdict on them, still stand at its UPDATE |
| `Evidence.WindowMovesIffResumed` | internal/db/gen/schedule.sql.go:473-483 | over whole runs last_enabled_at moves exactly when a disabled schedule is resumed |
| `Witnesses.LatePauseOnOldFailures` | internal/api/finalize_autopause.go:50-87 | a legal run in which two evaluations list one failure, one pauses, the operator resumes, and the other pauses again |
| `AutoPausing.WindowAfter` | internal/db/gen/schedule.sql.go:473-483 | over whole runs last_enabled_at never goes back |
| `AutoPausing.RepeatedResumesKeepTheWindow` | internal/db/gen/schedule.sql.go:473-483 | over any run in which the schedule stays enabled, resumes included, its window stays |
| `Schema.Decide` | internal/scheduler/overlap.go:38-58 | dispatches exactly for concurrent or when nothing is active; queues only under queue |
| `Overlap.DecisionOverRows` | internal/scheduler/tick.go:152-182 | over the rows: dispatched exactly for concurrent or when no other run of the schedule itself is pending or running; otherwise queued exactly under queue and skipped exactly under skip or an unknown policy |
| `Overlap.OtherSchedulesDoNotMatter` | internal/db/gen/run.sql.go:477-482 | two states whose rows of the schedule agree give the same decision, whatever other schedules run |
| `Overlap.CountOthers` | internal/scheduler/tick.go:154-163 | the loop counts the other active runs |
| `Listing.DueListIsDue` | internal/db/gen/schedule.sql.go:274-285 | over the columns: the due list holds exactly the enabled schedules whose fire time has come, each once with its own columns, by fire time |
| `Listing.DrainListIsPending` | internal/scheduler/tick.go:300-329 | over the columns: the drain list holds exactly the pending rows of enabled schedules, scheduled ones only under queue with nothing of the schedule unfinished before them, oldest first |
| `Listing.StreakIsLatestFailed` | internal/api/finalize_autopause.go:63-78 | over the columns: the listed streak is full exactly when the newest n scheduled runs of the window that are over have all failed |
| `TickCode.Store.Tick` | internal/scheduler/tick.go:61-92 | one pass with everyone else running in between is a legal run of the machine; only a failed listing stops it; every schedule listed is fired and advanced to its next time; each that the insert found unfired had its other active runs counted on record, and was discarded, left pending or launched as Decide says of them; every row selected is launched; unless there is a cause (no next time, schedule deleted, a failed call); the statistics are the outcomes; one sweep is made, and one that succeeds leaves nothing overdue and fails only rows out of time |
| `TickRecord.SmoothPass` | internal/scheduler/tick.go:61-92 | with no failing call, next times for all and nothing deleted: every listed schedule is fired and advanced once; unless its insert met the fire's row, the runs active then were counted and Decide's verdict carried out, a dispatched one among the launches; every selected row is launched; no errors |
| `TickRecord.WorkIsCounted` | internal/scheduler/tick.go:69-77 | dispatched and skipped are the launches and discards of the pass |
| `TickCode.Store.ProcessAll` | internal/scheduler/tick.go:69-77 | every due schedule has an outcome with its cause and the state it was decided in, and the statistics count them |
| `TickCode.Store.ProcessOne` | internal/scheduler/tick.go:96-197 | the outcome is no-next-time exactly when the cron gives none, schedule-gone only if it is gone, a failure only if one of the calls it names failed, already-fired only if this pass's insert met the fire's row; otherwise the fire is on record, next_fire_at was set to the time that follows it, and the outcome is Decide's verdict on the other active runs in the state on record in which they were counted, the run launched if that is dispatch |
| `TickCode.Store.Decided` | internal/scheduler/tick.go:152-197 | on a fresh row: the count is on record, the outcome is Decide's verdict on the runs active then, with the launch on record if dispatched, and an error only if the count or the call that follows failed |
| `TickCode.Store.CarriedOut` | internal/scheduler/tick.go:165-196 | the verdict is carried out, the row deleted or the runner launched, unless the call for it failed, and exactly then it is an error |
| `TickCode.Store.DrainAll` | internal/scheduler/tick.go:358-377 | every row that was read has an outcome with its cause |
| `TickCode.Store.DrainOne` | internal/scheduler/tick.go:359-374 | the row is launched exactly when its token is stored and the dispatcher answers |
| `TickCode.Store.InsertRun` | internal/scheduler/tick.go:118-133 | succeeds exactly when the call answers and the schedule is there; then the fire is on record, by a new pending row or by the one that stood there |
| `TickCode.Store.Land` | internal/db/gen/run.sql.go:377-393 | the row is new exactly when no row has that schedule and fire time; otherwise nothing changes |
| `TickCode.Store.CountActive` | internal/scheduler/tick.go:152-182 | the verdict is what the policy makes of the rows of the schedule itself in the state on record at the count, and takes the loop there |
| `TickCode.Store.DispatchRun` | internal/scheduler/tick.go:216-289 | sign, persist, launch, mark; success exactly when the first two calls answer, and then exactly one launch on record |
| `TickCode.Store.DispatchPending` | internal/scheduler/tick.go:300-377 | drains exactly what its SELECT returned; each row is launched unless one of its calls failed |
| `TickCode.Store.ListDueSchedules` | internal/db/gen/schedule.sql.go:274-285 | returns exactly the enabled schedules whose fire time has come, with their columns, by fire time |
| `TickCode.Store.ListDrainable` | internal/scheduler/tick.go:300-329 | returns exactly the rows the SELECT's condition admits, oldest first |
| `TickCode.Store.SweepOrphans` | internal/scheduler/tick.go:87-89 | a successful sweep makes of the rows in a state on record what `Sweeping.SweepIsFair` says over the columns, and leaves no active run older than its limit |
| `TickCode.SnapsAreDue` | internal/db/gen/schedule.sql.go:274-285 | selecting, ranking and reading the rows gives the due list |
| `TickCode.JobsAreDrainable` | internal/scheduler/tick.go:300-329 | selecting, ranking and reading the rows gives the drain list |
| `TickCode.Store.Safe` | internal/scheduler/tick.go:61-92 | the statements executed are a legal run of the machine, and every state the code reaches satisfies the ledger and dispatch invariants, and the fire-time invariant if every sync was harmless |
| `Handlers.EvaluateAutoPause` | internal/api/finalize_autopause.go:31-131 | reads the window, lists and acts in states on record in that order, everyone else between; pauses and audits exactly when the schedule is still there and enabled and its newest n scheduled runs of the window it read have all failed, n being its own column or five; otherwise, and on an error, changes nothing |
| `Handlers.ListRecent` | internal/db/gen/run.sql.go:527-536 | returns the newest terminal scheduled runs of the window, newest first, at most the limit |
| `Handlers.TopIsNewest` | internal/db/gen/run.sql.go:527-536 | the head of the ranked rows is what ORDER BY and LIMIT ask for |
| `Handlers.AllFailed` | internal/api/finalize_autopause.go:71-78 | true exactly for enough rows, all failed |
| `Handlers.CheckBody` | internal/api/finalize.go:82-123 | accepts exactly the bodies with a terminal status, no negative accounting and well-formed notifications |
| `Handlers.CommitFinalize` | internal/api/finalize.go:125-180 | the answer is decided by the row and by which call fails: 409 for a row gone or terminal, success for one that is neither, the row then ended by this bearer with the status asked and at that instant, and no other changed; anything else leaves the table alone |
| `Handlers.ServeFinalize` | internal/api/finalize.go:66-217 | 401, 403 and 400 each exactly for their cause, with nothing written; 500 only for a failing call; 409 only for a row gone or terminal; 204 means the update of a non-terminal row to the status the body names is on record and, for a failed scheduled run without a fault in it, an evaluation of its schedule after that, which pauses it on a full streak |
| `Handlers.InsertManual` | internal/db/gen/run.sql.go:377-393 | a manual row is always fresh and changes no other row |
| `Handlers.ServeRunNow` | internal/api/trigger.go:37-119 | 403, 400 and 404 each exactly for their cause, with nothing written; 500 only when the load or the insert fails; success leaves a pending manual row with a placeholder hash |
| `Sync.Validate` | internal/config/manifest.go:258-314 | accepts exactly the valid manifests: distinct paths, distinct names per skill, valid fields |
| `Sync.CheckAgainstSkill` | internal/sync/upsert.go:105-160 | the cross-file and range checks accept exactly the schedules that fit the skill's servers |
| `Sync.CheckEntry` | internal/config/manifest.go:264-312 | the same for one skill entry |
| `Destinations.CheckDestinations` | internal/config/manifest.go:68-130 | accepts exactly the destinations with a known condition, a usable HTTP target and a complete e-mail target |
| `Sync.UpsertAll` | internal/sync/upsert.go:88-218 | succeeds exactly when every schedule passes its checks and no upsert fails; then every schedule of the entry is upserted against the table before it |
| `Sync.SyncSkill` | internal/sync/upsert.go:83-226 | succeeds exactly when the disabling statement answers too; then every other schedule of the skill is disabled |
| `Sync.UpsertSkills` | internal/sync/upsert.go:50-72 | succeeds exactly when every listed skill was read and no upsert fails; then each is there under its kept or a fresh id |
| `Sync.Database.UpsertSkillsAndSchedules` | internal/sync/upsert.go:31-232 | succeeds exactly when every check passes and no statement fails; on success the tables are the synced ones, on failure unchanged |
| `Sync.StepsMakeSync` | internal/sync/upsert.go:31-232 | the three passes together give the synced tables and leave other repositories alone |
| `SyncLaws.SkillsAreTheManifests` | internal/db/gen/skill.sql.go:14-18 | after a sync the repo's skills are exactly the manifest's |
| `SyncLaws.ColumnsAreTheManifests` | internal/sync/upsert.go:143-216 | after a sync the row of every listed schedule, new or not, carries what the manifest says: policy, cron, timezone or UTC, timeout or ten minutes, provider, model, turns, env, prefix, threshold and payload; an existing row keeps its id and what pauses and resumes wrote |
| `SyncLaws.UnlistedIsSwitchedOff` | internal/sync/upsert.go:222-227 | a schedule of a listed skill that is listed no more is disabled and otherwise unchanged |
| `SyncLaws.EnabledAreTheManifests` | internal/db/gen/schedule.sql.go:90-97 | a schedule is enabled exactly when the manifest lists it, and then it is armed |
| `SyncLaws.FireTimesAfterSync` | internal/db/gen/schedule.sql.go:627-634 | an enabled, armed schedule with unchanged cron and timezone keeps its fire time, any other gets one after now; a re-armed one is the cron's next time after the clock reading |
| `SyncLaws.SecondSyncIsQuiet` | internal/db/gen/schedule.sql.go:600-636 | a second identical sync changes nothing but timestamps in any row of either table |
| `SyncLaws.SyncIsAStep` | internal/sync/upsert.go:250-256 | every successful sync is one the transition system allows, at whatever later instant it commits |
| `McpClient.NeverPanicsNorBlocks` | internal/mcp/client.go:40-70 | under every interleaving no channel is sent on twice, closed twice or sent on after close, and a delivery never blocks the reader |
| `McpClient.AnswersMatchRequests` | internal/mcp/client.go:72-121 | a response a call returns carries that call's id |
| `McpClient.AnswersWereRead` | internal/mcp/client.go:40-121 | what a call returns is a response the server sent, word for word |
| `McpClient.AnswerArrives` | internal/mcp/client.go:40-121 | from every reachable state a response to a pending request comes to its waiting caller |
| `McpClient.EmptyOnceStopped` | internal/mcp/client.go:40-70 | once the reader has stopped the pending map is empty for ever |
| `McpClient.NobodyIsForgotten` | internal/mcp/client.go:100-121 | a waiting call that is no longer pending can return at once |
| `McpClient.InvKept` | internal/mcp/client.go:40-121 | every step keeps the client's invariant |
| `McpManager.SplitToolName` | internal/mcp/manager.go:212-218 | gives the reading with the shortest server, and none exactly when there is none |
| `McpManager.ReadingIsUnique` | internal/mcp/manager.go:212-218 | a name has at most one reading |
| `McpManager.OfferedNameComesBack` | internal/mcp/manager.go:212-218 | server + "__" + tool is read back as that pair exactly when both are non-empty and the server holds no "__" and does not end in "_" |
| `McpManager.DispatchAll` | internal/mcp/manager.go:137-197 | whatever the goroutine order, result i is that of call i under its id: an unreadable name or unknown server is fatal before any call, an error is classified as timeout, cancellation or crash; a fatal error is reported exactly when some call had one, and it is the first |
| `McpManager.RunCall` | internal/mcp/manager.go:157-192 | one goroutine: its slot and its fatal kind |
| `McpManager.RingBuf.Write` | internal/mcp/manager.go:231-248 | after a write of any length the buffer holds the last bytes of everything written |
| `McpManager.RingBuf.Snapshot` | internal/mcp/manager.go:250-266 | returns the last min(written, capacity) bytes, at every wrap position |
| `AgentLoop.RunnerLoop` | internal/runner/runner.go:283-350 | every transcript sent is well formed and is the one before with that turn as it was said and, use by use, what its tool returned; at most maxTurns are sent, usage is the sum, success only on a turn without tool uses, each failure told apart |
| `AgentLoop.ChatLoop` | internal/chat/chat.go:88-179 | the same discipline; tool errors are replies, and out of turns or an empty answer give the apology |
| `AgentLoop.TurnExtends` | internal/runner/runner.go:302-344 | an assistant turn and one reply per use, same ids, same order, keep a transcript well formed |
| `AgentLoop.Answer` | internal/runner/runner.go:312-344 | the replies answer the uses one by one with the results of their calls, unless some call failed fatally |
| `AgentLoop.CallTools` | internal/chat/chat.go:151-172 | one reply per use, with the tool's result or error |
| `AgentLoop.Opening` | internal/chat/chat.go:107-115 | the opening transcript is the system prompt and the user and assistant history in order, and is well formed |
| `AgentLoop.ResolveMaxTurns` | internal/runner/runner.go:488-496 | schedule before skill before default, always at least one |
| `Phases.Run` | internal/runner/runner.go:139-444 | emits a non-empty prefix of boot, secrets, exec, publish and, exactly on error, one closing fail naming the last phase |
| `Phases.ReduceTimeline` | web/src/lib/timeline.ts:24-51 | one segment per non-fail boundary, ending at the next boundary, the finish or now |
| `Phases.TimelineOfARun` | web/src/lib/timeline.ts:24-51 | on every log of a run, other events interleaved, the segments are contiguous from boot to fail, finish or now, and only the last is failed, exactly in the error case |
| `Phases.BoundariesArePhases` | web/src/lib/timeline.ts:24-33 | the boundaries are the phase events, in order |
| `BashQuote.BashQuote` | internal/githubapp/state.go:50-95 | the two byte loops produce the quoted form |
| `BashQuote.RoundTripIffNulFree` | internal/githubapp/state.go:46-95 | bash reads the quoted form back as the value exactly when it holds no NUL |
| `BashQuote.QuotedReadsBack` | internal/githubapp/state.go:50-95 | for every value bash reads it back up to the first NUL, whatever follows the line |
| `BashQuote.QuotedHasNoNewline` | internal/githubapp/state.go:50-95 | the quoted form never holds a raw newline |
| `BashQuote.SourcedIsTheUnion` | internal/githubapp/state.go:11-28 | sourcing any number of saves one after another gives their right-biased union |
| `BashQuote.SaveComesBackIffNulFree` | internal/githubapp/state.go:17-28 | one save comes back whole exactly when no value holds a NUL |
| `BashQuote.AppendedIsReadIff` | internal/githubapp/state.go:30-37 | after the file was cut anywhere by a short write, bash reads what is appended as lines of its own, from the first key on, if and only if the file was left empty or ending in a newline |
| `BashQuote.AppendedTakesEffect` | internal/githubapp/state.go:30-37 | and then all of it takes effect on top of the lines written whole |
| `BashQuote.LinesStartAfterNewlines` | internal/githubapp/state.go:30-37 | in any text, however quoted, bash begins a line only after a newline |
| `BashQuote.TornWriteSwallowsTheNextLine` | internal/githubapp/state.go:30-37 | an instance: cut inside a plain value, the next line is read as part of it |
| `BashQuote.StateFile.SaveState` | internal/githubapp/state.go:17-44 | appends one line per key in order, never rewrites, and says what each failing call leaves behind |
| `Redact.SecretsNeverLeak` | internal/redact/redact.go:24-43 | if no secret holds a bracket or is part of REDACTED, no secret is in the output, for every text and overlapping list, redaction is idempotent, and nothing but secrets is lost |
| `Redact.NeverLeaksIff` | internal/redact/redact.go:24-43 | among lists of secrets without brackets exactly those are safe for every text in which no secret is part of REDACTED |
| `Redact.PartOfPlaceholderLeaks` | internal/redact/redact.go:38-43 | a secret that is part of the placeholder is shown by the redaction of itself, whatever else is in the list |
| `Redact.NoneSurvives` | internal/redact/redact.go:38-43 | the same under the weaker condition that no secret overlaps an edge of the placeholder |
| `Redact.BracketFreeIsApart` | internal/redact/redact.go:9 | bracket-free values outside REDACTED meet that condition |
| `Redact.NoNewOccurrence` | internal/redact/redact.go:38-43 | replacing one value creates no occurrence of another |
| `Redact.ReplacedIsGone` | internal/redact/redact.go:38-43 | replacing a value leaves none of it |
| `Redact.CleanIsUntouched` | internal/redact/redact.go:38-43 | secret-free text is unchanged |
| `Replacing.ReplacedPiecewise` | internal/redact/redact.go:38-43 | what one replacement computes: the text is pieces joined by the value at its leftmost, not overlapping occurrences, and the result is the same pieces joined by the placeholder |
| `Replacing.SplitIsUnique` | internal/redact/redact.go:38-43 | there is one such cut of a text |
| `Replacing.PiecesAreClean` | internal/redact/redact.go:38-43 | and none of its pieces holds the value |
| `Redact.RestIsKept` | internal/redact/redact.go:38-43 | over the whole list: the text is pieces with secrets between them, none of the pieces holds one, and the output is the same pieces, in order, with placeholders between them |
| `Redact.SecretInsideThePlaceholderLeaks` | internal/redact/redact.go:9-43 | an instance |
| `Redact.Redactor.constructor` | internal/redact/redact.go:24-35 | keeps the non-empty secrets, each as often as given, longest first |
| `Redact.Redactor.Redact` | internal/redact/redact.go:38-43 | the loop's output is clean, stable and leaves clean text alone; each value is replaced at its leftmost, not overlapping occurrences, and nothing but secrets is lost |
| `YamlAppend.AppendScheduleToSkill` | internal/yamledit/append_schedule.go:38-92 | refuses exactly as listed, in that order; otherwise the tree with the normalised schedule appended at the first matching skill |
| `YamlAppend.FindSkillsSequence` | internal/yamledit/append_schedule.go:96-115 | finds the first skills pair or says what is wrong |
| `YamlAppend.FindSkillEntry` | internal/yamledit/append_schedule.go:120-148 | finds the first entry with the path and the last schedule list in it |
| `YamlAppend.HasScheduleNamed` | internal/yamledit/append_schedule.go:150-167 | true exactly when some schedule of the list has the name |
| `YamlAppend.EditedElsewhere` | internal/yamledit/append_schedule.go:67-80 | every node outside the one entry is unchanged, the skills stay where they were and their node keeps its kind, tag and value |
| `YamlAppend.GrownListGrows` | internal/yamledit/append_schedule.go:71-80 | the skill's list is the old one plus the new node; its other pairs stay in place |
| `YamlAppend.LookupAfterAppend` | internal/yamledit/append_schedule.go:120-148 | the lookup finds the grown entry where it found the old one |
| `YamlAppend.UniqueNamesStayUnique` | internal/yamledit/append_schedule.go:62-64 | names under the skill are unique after exactly when they were before |
| `YamlAppend.SecondAppendIsADuplicate` | internal/yamledit/append_schedule.go:150-167 | appending the same name again is refused as a duplicate exactly when it is not empty |
| `YamlAppend.KeysStayDistinctIff` | internal/yamledit/append_schedule.go:71-77 | the entry's keys stay distinct exactly when schedules was absent or a sequence |
| `YamlEdit.ReorderAndFilter` | internal/yamledit/append_schedule.go:241-282 | rebuilds a mapping from the last value of each key, canonical keys first, then the others sorted, without empty values |
| `YamlEdit.NormalKeepsTheNonEmpty` | internal/yamledit/append_schedule.go:210-282 | the kept pairs are exactly the given ones whose value is not empty |
| `YamlEdit.NormalIsInOrder` | internal/yamledit/append_schedule.go:193-282 | they stand in canonical order, each key once |
| `YamlEdit.NormalisingIsIdempotent` | internal/yamledit/append_schedule.go:241-282 | normalising again changes nothing |
| `Text.SortStrings` | internal/runner/runner.go:469-475 | the in-place insertion sort orders the strings and keeps them |
| `Text.LeqIsByteOrder` | internal/config/secretrefs.go:13-30 | the order is byte order: the first place where two strings differ decides |
| `Text.ListingIsUnique` | internal/config/secretrefs.go:24-29 | a set has one sorted duplicate-free list, so map order cannot show |
| `SecretRefs.Walk` | internal/config/secretrefs.go:45-58 | whatever the map order, adds exactly the tree's references to the set |
| `SecretRefs.RefsAreTheNames` | internal/config/secretrefs.go:45-58 | these are exactly the non-empty strings at the end of some path into a secret key |
| `SecretRefs.CollectSecretRefs` | internal/config/secretrefs.go:13-30 | the sorted, duplicate-free list of all references of all sources and the LLM ref |
| `SecretRefs.ManifestIsScopeIff` | internal/api/run_context.go:99 | manifest and token scope are the same list exactly when mcp_env names no secret missing from the other sources |
| `SecretRefs.ElsewhereIsScope` | internal/scheduler/tick.go:188 | the scope is what destinations, env and the LLM ref name |
| `StreamCap.CapHolds` | internal/webapi/ratelimit.go:145-162 | under every interleaving the counter is admitted plus rejecting requests, admitted streams never exceed the cap, and the counter returns to zero |
| `StreamCap.AdmittedIffRoom` | internal/webapi/ratelimit.go:152-157 | a request is admitted exactly when admitted and rejecting ones leave room |
| `StreamCap.RejectedWithNoStreamOpen` | internal/webapi/ratelimit.go:154-158 | a run in which a request is turned away with no stream open |
| `TokenCache.CachedTokensHaveAMinuteLeft` | internal/webapi/copilot_token.go:132-196 | one caller, any read or write failing, expiries never going backwards: every token served from cache has more than 60 s left |
| `TokenCache.HonestAlways` | internal/webapi/copilot_token.go:188-196 | the stored expiry never overstates the stored token's life |
| `TokenCache.HonestyBreaksIff` | internal/webapi/copilot_token.go:188-196 | exactly which call makes it do so when expiries may go backwards |
| `TokenCache.BackwardsExpiryServesADeadToken` | internal/webapi/copilot_token.go:165-186 | a run in which a dead token is served |
| `TokenCache.Store.Resolve` | internal/webapi/copilot_token.go:132-159 | answers and writes as specified; a cached answer from an honest store has more than 60 s left |

## Left out

- Parsing of request URLs and of HTTP targets: given as its result.
- HTTP routing, sessions, CSRF, OAuth, JWT signing and hashing, Key Vault, publishers, LLM adapters, dispatchers: network and library code around one-branch checks.
- Finalizing with the shared runner key instead of a bearer: such a request carries no run id and the handler refuses it for every real run.
- Cron parsing and time zones: only the strictly-later contract of `NextFire` is used.
- Redact.NeverLeaksIff: is about secrets without brackets; for others `Redact.NoneSurvives` gives a sufficient condition, because a secret with brackets can fail it and still never leak.
- YAML and JSON text, comments, anchors and aliases: the tree edit works on values, so a node shared through an alias and updated in place is not captured.
- The operator's schedule overrides (provider, model and similar columns) and repository connection management beyond removal: they touch no column the theorems are about.
- Run events, notifications, metrics and the run-now audit row: written, never read by the modelled code.
- The wall-clock fields of a run result and the publishing stage's own status: not part of the phase events.
- Two concurrent callers of the Copilot token cache: the promise is made for one.
- bash constructs that the quoted form never uses (Unicode and control escapes, double quotes, expansions): the reader refuses them.
- `SortFunc` is not stable: the order of equally long secrets is left open in `Redact.Redactor.constructor`'s contract.
- UTF-8: strings are sequences of characters that stand for bytes.
