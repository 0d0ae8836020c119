# Verification of the deployer control plane

The deployer is a small platform: an agent uploads or sends source, the control plane builds it in a
cluster Job, deploys the image and keeps a ledger of releases that a rollback can re-promote. This
project models the parts of it where something must hold whatever interleaves, and proves that it does.

## How the model is built

- **The database is one value and every write transaction one step** (`Tables.dfy`). A transaction is a
  function from tables to tables and an answer; `Store.dfy` is the store's own statement by statement code,
  proved equal to those functions, rollbacks included. `Transactions.dfy` is the reason a body counts as one
  step, the retried `BEGIN IMMEDIATE` with its `committed` flag, and `Commits.dfy` runs each of them through it.
  `Effects.dfy` says of each transaction, in the rows' own columns, when it is refused and what it writes.
- **A run is a sequence of committed transactions** (`Runs.dfy`), agents' and the reconcile loop's. `Guard`
  and `Composed` say what each writer has established before it writes. `Invariant.dfy` proves the invariant
  inductive; `History.dfy`, `Releases.dfy` and `Claims.dfy` prove what follows over whole runs. `Retention.dfy`
  puts sweeps anywhere into a run and proves that it is still one without them, but for the ended rows and old
  events it has forgotten; `Status.dfy` proves the report of such runs, and `Example.dfy` walks two.
- **The world is a function of the call** (`Calls.dfy`): what happens before the k-th call that leaves the
  process, whether it is lost, lands unheard or is answered, and what the answer says. The log holds every
  call made, and everything committed is accounted for by it. What a call is for fixes its context: a drive's
  calls have the row's budget, its polls their phase, a failure's write ten seconds of its own however spent the
  budget is, and what is no drive's has no deadline. So a call fares as the world has it unless the process has
  died, was told to stop, or that time had run out: `Calls.FateOf`.
- **The reconcile loop is a class** (`Reconcile.dfy`) with the source's own methods. Before every call time
  passes, agents commit any transactions they like, the process is told to stop or dies, and others compose or
  tear down namespaces, all as the world has it. The class invariant says that the database is what one legal
  run makes of an empty one, so what is proved of runs is proved of the loop across crashes and restarts; that
  the log is the world's; that every write was warranted by answers before it; and that every call was made in
  the context its purpose fixes. A contract that speaks of what was said, lost or answered speaks of the log, and
  no method can make any of it up, or lose a call by giving it less time than it should have.
  `Driving.dfy`, `Passes.dfy` and `Reaping.dfy` hold the facts its methods carry from call to call, and
  `Stuck.dfy` is a drive in one such world.
- **The authorization server and registration** follow the same shape: transactions and runs in `OAuth.dfy`
  and `Invites.dfy`, the multi-step requests with everybody else running in between in `OAuthGrant.dfy` and
  `Registration.dfy`. Their stores keep a journal of who committed what, and a request's contract speaks of
  every row its own transactions changed.
- **Sequential algorithms** have a file each: the limiter, path cleaning, packing, extraction, detection, the
  configuration bounds and checksum text, the port bound, id generation.

An id is the rank in which it was drawn; `Ids.dfy` proves when that order is the order of the ids' text.
Strings are sequences of bytes, one `char` a byte. Times are integers in nanoseconds.

## Where the code and its own comments differ

- `internal/uploads/pack.go:38-39` says the same files pack to the same bytes every time. Two names that clean
  to one path with different bodies do not: `Packing.DeterministicIff` and `Packing.TwoSpellings`.
- `internal/deploy/portrange.go:26-29` says an out of order entry only ever narrows the ranges. It is skipped, so
  its port stays reachable: `Ports.ExactIffOnlyRepeatsRunBack` and `Ports.OutOfOrderWidens`. The loader sorts.
- The merged-size bounds of `internal/domain/config.go` are judged in one transaction and written in another, so
  overlapping calls can pass them together: `ConfigTools.OverlapBoundedIff` and
  `ConfigTools.OverlappingCallsEscapeTheBounds`.
- `CHANGELOG.md:25` promises a timeline of every recorded transition. It is ordered by stamps taken before each
  transaction waits for its lock, so it need not end in the reported state, and a sweep takes its old entries:
  it ends there exactly when `Status.TimelineEnds` says, and `Example.LateStampMisleads` is a run where it does not.
- `internal/reconcile/reconcile.go:490-491` says every exit from a drive is terminal. The row is in flight after it
  exactly when the log holds its failure write, lost, and nothing else ended the row: `Reconciling.Reconciler.Drive`.
  The write is lost only by the world, by the process's death or after its ten seconds, so in a world that does none
  of these every drive's exit is terminal.
  `Stuck.DriveLeavesBuilding` is a drive that leaves its row building.
- `internal/ids/ids.go:55-56` says ids always sort into the order they were drawn. Across a restart they do exactly
  when the clock has moved on a millisecond: `Ids.RestartKeepsOrderIff`.
- `internal/store/config.go:113-115` reports any constraint failure as a bad key, a missing app's foreign key
  included; the model does the same.
- `internal/source/extract.go:54-56` says a rejected archive never leaves a half unpacked tree. Extract writes as it
  goes, so it does whenever anything was unpacked before the refusal: `Leftovers.LeftAloneIff` says exactly when
  the destination is left as it stood, and `Leftovers.HalfUnpacked` is an archive that leaves a file behind.

## Model

| member | source | states |
|---|---|---|
| StateMachine.MovesClimb | internal/domain/state.go:24-57 | Every allowed move strictly climbs in rank, the terminal states are exactly those nothing leaves, and every other state may fail or be cancelled |
| Effects.MovesExactly | internal/domain/state.go:24-57 | The moves are exactly one step up the ladder, a rollback's step from queued to deploying, and failed or cancelled from anywhere that is not an end |
| Configuration.ValidConfigKey | internal/domain/configkey.go:13-26 | Accepts exactly an upper case letter or underscore followed by upper case letters, digits and underscores |
| Configuration.TotalBytesTake | internal/domain/config.go:92-98 | The byte total of a configuration does not depend on the order its keys are counted in |
| Configuration.CheckWrites | internal/domain/config.go:56-80 | Objects exactly when the call is empty, a write is malformed or reserved or too long or lacks its flag, or a key is named twice |
| Configuration.CountBytes | internal/domain/config.go:92-95 | Ranging over the map in any order counts every key and value once |
| Configuration.ValidateConfig | internal/domain/config.go:56-100 | Accepts exactly the non-empty calls that name no key twice, whose every key is well formed and not PORT or APP_URL, every value at most 4096 bytes and flagged, and whose merged result has at most 64 keys and 32 KiB; a size refusal of a well formed call names the bound that failed |
| Configuration.WrittenValues | internal/domain/config.go:82-88 | The map a write produces is the very map validation judged |
| Effects.WrittenAt | internal/store/config.go:96-125 | Each key a call names holds afterwards exactly the value and the flag asked for, and every other key what it held |
| Configuration.AcceptedStaysBounded | internal/domain/config.go:56-100 | An accepted call leaves the app inside every bound |
| Configuration.RemovalStaysBounded | internal/store/config.go:135-148 | Removing a key never leaves the bounds |
| Configuration.ValidateUnset | internal/domain/config.go:105-115 | Accepts exactly non-empty lists of valid keys |
| Tables.SnapshotRoundTrip | internal/store/deployments.go:372-415 | A release's stored snapshot decodes to exactly the configuration and flags it was written from, for text that is valid UTF-8 |
| Tables.DecodeSnapshot | internal/store/deployments.go:393-415 | A snapshot reads back exactly when no value of it has an unknown shape, and then with the same keys |
| Tables.SnapshotRestores | internal/store/deployments.go:382-415 | Key by key, an entry of the newer shape is restored with its own flag and one of the older shape, which has none, as a secret |
| Tables.FindInFlight | internal/store/deployments.go:84-88 | Finds an in flight deployment of the app whenever there is one, and the newest |
| Tables.MaxReleaseNumber | internal/store/deployments.go:318-321 | The highest release number the app holds, or none |
| Tables.NextDeploymentFrom | internal/store/deployments.go:515-524 | The app's next deployment by id, with none of the app's in between |
| Tables.OldestUnclaimed | internal/store/queries/deployments.sql:59-69 | The lowest claimable row of one kind, and one whenever there is one |
| Transactions.Database.WriteTx | internal/store/store.go:228-255 | One attempt commits exactly what its body makes of the rows it began with, or changes nothing, and gives the lock back either way; it fails only for what the body refuses or the first of BEGIN and COMMIT that is not granted |
| Commits.Commit | internal/store/store.go:211-225 | Through the retries and whatever others commit between them, each action of a run takes effect as one legal step of it, or not at all, and then for a cause: refused on those rows, failed by the database, or busy every time |
| Transactions.Database.InTx | internal/store/store.go:211-225 | Over the retries the body takes effect exactly once, on the rows as its own attempt found them, or not at all; busy means that every attempt was, and that there were three or the caller stopped |
| Stores.Store.CreateDeployment | internal/store/deployments.go:51-146 | The statements of a create, the supersession and its two events included, amount to one step or roll back whole |
| Effects.CreateDeploymentIff | internal/store/deployments.go:51-146 | A create is refused exactly for a missing or deleted app, or a release that is missing or another app's; else it adds one queued row, with the release's digest if a rollback, cancels exactly what of the app was in flight, and touches nothing else |
| Stores.Store.Transition | internal/store/deployments.go:154-186 | The checks and the write of a move amount to one step; healthy is refused here |
| Effects.TransitionIff | internal/store/deployments.go:154-229 | A move is refused exactly for healthy, a missing row, an end, or a move not in the table, each with its own error; else it writes the state, the first start, the first finish, a failure's reason and one event, and nothing else |
| Stores.Store.ApplyTransition | internal/store/deployments.go:190-229 | Row and event are written together, and stamps and reason are only ever set |
| Effects.StampsFromLog | internal/store/deployments.go:190-229 | In every reachable state a row started at its first event after birth unless that cancelled it, finished at its last if that is an end, and has that event's reason if it failed or was cancelled |
| Stores.Store.RecordBuildResult | internal/store/deployments.go:242-264 | Fields given as null keep what the row held |
| Effects.RecordBuildIff | internal/store/queries/deployments.sql:44-50 | Each column takes what it is given and keeps what it held where it is given nothing, on this row alone |
| Stores.Store.MarkHealthy | internal/store/deployments.go:284-358 | The move, the release, the pointer and a rollback's configuration land together or not at all |
| Effects.MarkHealthyIff | internal/store/deployments.go:284-317 | In a reachable state a promotion is refused exactly for a missing row, an end, and a row not yet deploying, each with its own error |
| Effects.PromotionRefused | internal/store/deployments.go:303-317 | In any state a deploying row is refused exactly for a missing digest and then for a release already minted |
| Effects.MarkHealthyWrites | internal/store/deployments.go:318-358 | Else it moves the row, mints the app's next number with the row's digest and the given configuration, points the app at it, and only for a rollback replaces the app's configuration |
| Stores.Store.ReplaceConfig | internal/store/deployments.go:421-441 | The app's stored configuration becomes exactly the given map, in whatever order it is written |
| Stores.Store.ClaimNext | internal/store/deployments.go:451-463 | One claim is one step on the row the platform owes next |
| Stores.Store.ReleaseBuildingClaim | internal/store/deployments.go:474-483 | Hands back only a row still building, and says whether it did |
| Effects.ReleaseClaimIff | internal/store/deployments.go:474-483 | A claim is cleared exactly on a building row, and nothing else changes |
| Stores.Store.CreateApp | internal/store/apps.go:31-84 | The cap counts live apps exactly, and a slug collision only ever costs a suffix |
| Effects.CreateAppIff | internal/store/apps.go:31-84 | Refused exactly for the cap on live apps, the name of a live app of the account, and when every slug tried is used, by deleted apps too; else it takes the first free slug and touches no other app |
| Stores.Store.SoftDeleteApp | internal/store/apps.go:263-282 | A delete is refused while a deployment is in flight and removes nothing |
| Effects.SoftDeleteIff | internal/store/apps.go:263-282 | Refused exactly while a deployment of the app is in flight or when there is no such live app; else it sets one flag |
| Stores.Store.SetConfigBatch | internal/store/config.go:96-125 | Every entry is written or none is |
| Effects.SetConfigIff | internal/store/config.go:96-125 | Refused exactly for a bad key or a missing app; else it writes that one app's table alone |
| Stores.Store.UnsetConfigBatch | internal/store/config.go:135-148 | Every key is removed or none is; one unknown key refuses the call |
| Effects.UnsetConfigIff | internal/store/config.go:135-148 | Refused exactly for a missing app, a key it does not hold or one named twice; else exactly those keys are gone |
| Runs.LegalLogFacts | internal/store/deployments.go:190-229 | A legal event log has at most four moves and folds to its last state, finished exactly when terminal |
| Runs.MovedReplays | internal/store/deployments.go:190-229 | A move keeps the row equal to the replay of its log |
| Runs.SupersededReplays | internal/store/deployments.go:91-115 | The supersede path, which bypasses Transition, keeps the row equal to the replay of its log |
| Invariant.CreateDeploymentKeeps | internal/store/deployments.go:51-146 | A create keeps every invariant, and the partial unique index never has to refuse it |
| Invariant.MarkHealthyKeeps | internal/store/deployments.go:284-358 | Minting keeps the ledger, the numbering, the pointer and the row invariants |
| Invariant.StepKeepsInv | internal/store/deployments.go:51-483 | Whatever any agent or the loop commits, every invariant of the tables holds again |
| History.InvOverRuns | internal/store/deployments.go:51-483 | The invariant holds at every point of every run |
| History.RunEvolves | internal/store/deployments.go:51-483 | Over any run, sweeps aside, logs only grow, terminal rows never change, releases never change and deletions are permanent |
| History.DeploymentLifetime | internal/store/deployments.go:154-229 | Across any run, sweeps aside, a deployment makes at most four transitions, each strictly up in rank, its log always replays to its row, and once terminal neither state nor reason changes |
| History.InFlightIsNewest | internal/store/deployments.go:84-139 | In every reachable state an app's in flight deployment is its only one and its newest by id |
| History.CancelStep | internal/store/deployments.go:84-139 | A step cancels an in flight row exactly when it creates that row's immediate successor |
| History.CancelledBySuccessor | internal/store/deployments.go:515-524 | Sweeps aside, every cancelled deployment was cancelled by the transaction that created its successor, at the same instant, and the next deployment by id names that successor for ever; Retention.SuccessorLeft says how long under sweeps |
| Releases.HealthyIffReleased | internal/store/deployments.go:284-358 | In every reachable state a deployment is healthy exactly when one release names it, with its own non-empty digest |
| Releases.NumbersRunFromOne | internal/store/deployments.go:318-345 | Each app's release numbers are exactly 1..n, each once, and the current pointer is number n |
| Releases.LoopMintsOrWasOvertaken | internal/store/deployments.go:284-358 | On a deploying row MarkHealthy always succeeds: neither a missing digest nor an existing release can refuse it |
| Releases.RollbackRestores | internal/store/deployments.go:68-82 | A rollback that becomes healthy mints a release restoring its source's digest and snapshot and leaves app_config exactly that map |
| Releases.RollbackFidelity | internal/store/deployments.go:284-358 | Over any run, whatever is set or superseded meanwhile, a healthy rollback's release restores exactly what its source release restores |
| Releases.UnhealthyDeploymentLeavesApps | internal/store/deployments.go:284-358 | As long as a deployment is not healthy nothing written for it has touched any app's configuration or pointer |
| Releases.ChainResolvesToBuild | internal/store/deployments.go:68-82 | Every chain of rollbacks ends at one build's release and restores exactly what it shipped |
| Releases.BoundsOverRuns | internal/domain/config.go:56-115 | With each set_config call one step, every reachable configuration and every release snapshot is inside every bound, after rollbacks too |
| Example.RollbackHappens | internal/store/deployments.go:51-358 | A concrete run meets the premises above: built, reconfigured, rolled back, and the old configuration is back |
| Claims.ClaimPicks | internal/store/deployments.go:443-463 | A claim takes the oldest owed queued row, or the oldest stray only when none is queued, and nothing only when nothing is owed |
| Claims.OneClaimAtATime | internal/store/deployments.go:451-483 | Over any run a row is handed to two claims only if its claim was handed back in between |
| ConfigTools.ConfigTool.WriteConfig | internal/mcp/config.go:176-213 | Refused exactly when the configuration was read and the judgement fails, and then nothing is written; otherwise every write lands or none, on what agents and the loop made of the tables meanwhile, and the judged bounds hold when nobody changed the configuration; an internal error means a failed call or no such app |
| ConfigTools.OverlapBoundedIff | internal/mcp/config.go:186-205 | Any number of overlapping calls leave the app bounded exactly when its keys and theirs number at most 64 between them and its bytes and what the last write of each key adds come to at most 32 KiB |
| ConfigTools.OverlappingCallsEscapeTheBounds | internal/mcp/config.go:186-205 | Two calls accepted against an empty app that together leave sixty-five keys |
| Stores.Store.Sweep | internal/store/uploads.go:209-246 | The deletions of a sweep, children first, are one step or roll back whole |
| Effects.SweepTakes | internal/store/queries/uploads.sql:49-64 | Takes exactly the rows that ended failed or cancelled before the cutoff and, of every other row, the events stamped before it, and touches no other column or table |
| Retention.NeverReferenced | internal/store/uploads.go:204-208 | No release's foreign key ever refuses a sweep, because nothing released ever ages |
| Retention.StepForgets | internal/store/queries/uploads.sql:49-64 | Nothing a writer sees or writes depends on what has been swept |
| Retention.FullRun | internal/store/uploads.go:209-246 | Whatever is swept and whenever, the same writers' actions are a legal run, and the swept tables are what it leaves with only ended rows and some events missing: apps, releases, pointers, rows in flight and healthy rows all there |
| Retention.RecentIsTail | internal/store/queries/uploads.sql:64 | What a sweep leaves of a log whose clock never ran back is the end of it |
| Retention.SweptLedger | internal/store/uploads.go:209-246 | With sweeps anywhere, still one row in flight and the newest, healthy exactly when released, and release numbers 1..n with the current one n |
| Retention.SuccessorLeft | internal/store/deployments.go:515-524 | superseded_by still names the deployment whose creation cancelled this one exactly while that one is left, which it is as long as this one unless the clock ran back over its life |
| Status.Project | internal/mcp/status.go:135-182 | The loop and branches of the report assemble the projection the rows below are about |
| Status.ByInstantFacts | internal/store/queries/deployments.sql:30-33 | The timeline is the surviving log in order of stamp, and within one stamp in the order of writing |
| Status.OneArrangement | internal/store/queries/deployments.sql:30-33 | No other arrangement of the log is in that order |
| Status.ByInstantOrdered | internal/store/queries/deployments.sql:30-33 | When the clock never ran back that is the log as it was written |
| Status.TimelineEnds | internal/mcp/status.go:135-149 | The timeline ends in the reported state, with the reported reason, exactly when the event that put the row there is left and none left is stamped later |
| Status.ReportIsTrue | internal/mcp/status.go:135-182 | In every reachable state, whatever was swept: the report has that timeline with the log's own states, stamps and reasons, the row's engine, the number and digest of the one release naming a healthy row and of no other, a failed row's own reason, and superseded_by names the canceller exactly while that one is left |
| Example.LateStampMisleads | internal/store/deployments.go:51-139 | A create that read its clock before waiting: the timeline of the row it cancels ends in building |
| Drives.Untouched | internal/reconcile/reconcile.go:386-388 | Between a drive's writes nothing but a cancellation happens to its row |
| Drives.GuardSurvives | internal/reconcile/reconcile.go:949-955 | A write the loop may make it may still make after everybody else has acted |
| Driving.TransitionMoves | internal/store/reconcileadapter.go:104-110 | A transition asked for through the adapter moves the row as asked, or it was cancelled, or already ended |
| Driving.MarkHealthyPromotes | internal/store/reconcileadapter.go:125-134 | A row is healthy after the adapter's call only with its release minted from this configuration and its app live |
| Reconciling.Reconciler.Transition | internal/store/reconcileadapter.go:104-110 | A terminal row reads as no longer in flight, a lost write changes nothing, a call within its time fares as the world has it, and a fault is a call the world left unanswered or cut short by its own deadline or death |
| Reconciling.Reconciler.MarkHealthy | internal/store/reconcileadapter.go:125-134 | Whether or not the answer is heard, healthy means minted |
| Reconciling.Reconciler.Blocked | internal/reconcile/reconcile.go:560-573 | A spent budget blocks with timeout before the account is even read; going on means the log holds the account's read, not suspended |
| Reconciling.Reconciler.Wait | internal/reconcile/reconcile.go:901-913 | Going on means the phase had time left and a whole interval has passed, so every polling loop ends |
| Reconciling.Reconciler.Move | internal/reconcile/reconcile.go:949-955 | The in-memory copy follows the row exactly when the move was answered |
| Reconciling.Reconciler.StartBuild | internal/reconcile/reconcile.go:629-693 | A started build leaves the row building with its Job's name and the engine recorded, dockerfile exactly when the logged walk of the archive found one, or fails for the caller to record |
| Reconciling.Reconciler.BuildPath | internal/reconcile/reconcile.go:703-725 | The engine is dockerfile exactly when the logged walk of the archive found a Dockerfile; a refused walk is source_rejected and an unread archive internal |
| Reconciling.Reconciler.EngineStays | internal/store/queries/deployments.sql:36-50 | Once a row carries the engine its archive asks for, no later write of the loop or of anybody makes it another |
| Reconciling.Reconciler.AwaitBuild | internal/reconcile/reconcile.go:731-757 | Ends; the row reaches pushing only after the log holds the Job's success; its failure or absence in the log is always heeded with build_failed, which otherwise means the phase's whole time was spent |
| Reconciling.Reconciler.ResolveImage | internal/reconcile/reconcile.go:761-786 | The row reaches deploying only with the digest the log holds from the registry, of an image the log says does not run as root; one said to is always refused |
| Reconciling.Reconciler.DeployConfig | internal/reconcile/reconcile.go:856-869 | A build takes the app's table as it stands on return and a rollback its source release's snapshot, and that is what MarkHealthy will be allowed to record |
| Reconciling.Reconciler.ApplyObjects | internal/reconcile/reconcile.go:815-838 | The workload is applied only into a fenced namespace that already holds the Secret |
| Reconciling.Reconciler.AwaitReady | internal/reconcile/reconcile.go:872-889 | Ends, succeeds exactly when the log holds the workload's ready answer, gives app_never_ready only for the phase's whole time, and leaves the database and the cluster to others |
| Reconciling.Reconciler.DeployApp | internal/reconcile/reconcile.go:790-849 | Healthy only after a logged ready answer, with a release carrying the digest and configuration the namespace runs |
| Reconciling.Reconciler.Run | internal/reconcile/reconcile.go:577-621 | From any in flight state the walk ends healthy with what it shipped, on the logged answers for whatever was still to do and the engine the archive asks for, or with a failure whose reason the log or the clock bears out; only a dead process or a spent budget, which is then what is recorded, excuses a reason the world gave no ground for |
| Reconciling.Reconciler.Fail | internal/reconcile/reconcile.go:965-984 | Makes exactly this one write, with ten seconds of its own; unless it is lost the row is terminal afterwards, failed for this reason or ended by something else; it is lost only by the world, by the death of the process or once the ten seconds have gone by, and then the row is as the agents left it |
| Reconciling.Reconciler.RecordFailure | internal/reconcile/reconcile.go:519-534 | A budget spent by then is the recorded reason, whichever step noticed it, and the build is deleted on timeout and suspension; any other recorded reason was borne out by the time it was written |
| Reconciling.Reconciler.Expire | internal/reconcile/reconcile.go:453-460 | The watchdog deletes the build and ends the row with timeout or finds it ended, always in a world that loses nothing, and otherwise unless its write was lost by the world, the death of the process or ten seconds |
| Reconciling.Reconciler.Drive | internal/reconcile/reconcile.go:492-541 | Every drive terminates, and in a world that loses nothing ends with the row terminal; in any, the row is in flight exactly when its failure write was lost, by the world, the death of the process or ten seconds, and nothing else ended it; healthy means shipped, on the logged answers; failed means a reason the world or the clock bore out by the time it was written; a spent budget means timeout without driving |
| Driving.HealthySays | internal/reconcile/reconcile.go:577-621 | What a drive leaves healthy was said to be ready, had whatever of its build was still to do said to have succeeded with an image not running as root, and its namespace runs, fenced, the very digest and configuration its release holds, unless the app has been deleted |
| Driving.FailedSays | internal/reconcile/reconcile.go:513-535 | What a drive leaves failed was failed by one landed write of the loop, for one of nine reasons whose ground was there by then: the row's budget spent or a stop for timeout, an unanswered call or a deleted app for internal, the Job's word or a whole phase for build_failed, and so on |
| Driving.InFlightSays | internal/reconcile/reconcile.go:490-491 | What a drive leaves in flight has its failure write in the log, lost |
| Reconciling.Reconciler.RecoverOne | internal/reconcile/reconcile.go:367-420 | A row listed building with a recorded Job is asked about; failed or gone is followed by the write of build_failed, succeeded by handing the claim back, and anything else, no answer or any other row is left alone; whether each call lands and is heard is the world's |
| Passes.HandledSays | internal/reconcile/reconcile.go:380-417 | In full: the Job is asked about under no deadline, a failed or missing one is followed by the write of build_failed that ends the row if it lands, a finished one by the claim cleared if that lands, and anything else leaves the row to agents |
| Reconciling.Reconciler.RecoverStranded | internal/reconcile/reconcile.go:367-420 | The same for every listed row at once, stopping short only when told to, and a superseded row is never reopened |
| Reconciling.Reconciler.ExpireOverdue | internal/reconcile/reconcile.go:428-438 | A handled row whose createdAt plus the deploy budget had passed when the pass began has ended with timeout or otherwise, unless its write was lost by the world, the death of the process or ten seconds; a row whose budget has not run out when it ends is touched by agents only |
| Passes.InFlightViews | internal/store/deployments.go:528-534 | Lists every in flight row once, in order of id |
| Passes.EndedStays | internal/reconcile/reconcile.go:311-318 | What recovery ended with build_failed stays so through everything that follows |
| Passes.EvidenceSays | internal/reconcile/reconcile.go:311-318 | And for any row the tick recovered, the answer and the write are in the log, one after the other, and the row is still as that write left it or superseded |
| Reconciling.Reconciler.Tick | internal/reconcile/reconcile.go:319-336 | Recovery wins over expiry on one stale listing: rows ended on evidence keep build_failed however overdue; every handled row whose createdAt plus the deploy budget had passed when the tick began has ended, a claim was asked for, and the claimed row is as its drive leaves it; a world that loses nothing leaves every one of them terminal, and in any only being told to stop, or a failure write lost by the world, death or ten seconds, excuses any of it |
| Reconciling.Reconciler.Sweep | internal/reconcile/reconcile.go:342-355 | After a restart every listed row is driven to its end, unless told to stop or its failure write was lost; in a world that loses nothing and answers the listing, nothing that was in flight is still so |
| Reconciling.Reconciler.EventByCall | internal/store/deployments.go:190-229 | Every event a deployment gains but its supersession, one landed call of the loop wrote, about that row |
| Reconciling.Reconciler.ExactlyLost | internal/reconcile/reconcile.go:490-491 | A row whose drive is over is in flight exactly when its failure was written, lost by the world, death or ten seconds, never landed, and nothing else ended it |
| Calls.CommittedSource | internal/store/reconcileadapter.go:104-134 | Whatever was committed and is no agent's, one call of the log asked for, and landed |
| Calls.FateOf | internal/reconcile/reconcile.go:501-542 | Every call ever made fares exactly as the world has it, unless the process had died or the time its purpose fixes had run out: the row's budget for a drive, a phase counted from its first poll, ten seconds for a failure's write, and being told to stop for all but that write and the archive's reading; and then it is lost |
| Calls.WarrantSays | internal/reconcile/reconcile.go:731-786 | Every write ever made was warranted before it: pushing by the Job's success, an engine by the archive's walk, a digest by the registry and a user that is not root, deploying by an answered record, healthy by the workload's ready answer |
| Calls.ShownBy | internal/reconcile/reconcile.go:738-753 | Whatever the log is said to show, one call of it shows, about that deployment, answered, or left unanswered by the world itself |
| Passes.AllEndInKindWorld | internal/reconcile/reconcile.go:342-355 | When a whole listing has been driven and the world lost nothing, nothing that was in flight when it was listed still is |
| Stuck.DriveLeavesBuilding | internal/reconcile/reconcile.go:492-541 | A drive of a row that is building, after which it is still building and its failure write is in the log, lost |
| Reconciling.Reconciler.ClaimNext | internal/store/deployments.go:451-463 | A claim is asked for, and what comes of it is claimed by this pod; none comes of it only when nothing was owed, the process was dead or told to stop, or the world left it unanswered |
| Reconciling.Reconciler.Serve | internal/reconcile/reconcile.go:285-312 | Over any rounds, deaths and restarts the database is what one legal run makes of an empty one: nothing is taken back, every healthy rollback is faithful, the bounds hold as long as every set_config judged the map it changed, every write was warranted by the answers before it, and every call was made in the context its purpose fixes |
| Reaping.CandidatesRetired | internal/reconcile/reaper.go:22-55 | A namespace older than the grace and missing from the live slugs belongs to an app deleted for ever |
| Reaping.InFlightNeverReaped | internal/reconcile/reaper.go:18-21 | An app mid deploy always has a live slug |
| Reconciling.Reconciler.ReapOrphanNamespaces | internal/reconcile/reaper.go:22-55 | A pass never deletes a live app's namespace, and in a world that answers everything one not told to stop leaves no retired one old enough when it began |
| OAuth.StepKeeps | internal/store/oauth.go:65-265 | Every transaction of the authorization server keeps its invariants and takes nothing back |
| OAuth.SweepKeeps | internal/store/oauth.go:112-118 | The sweep never takes a client that was approved, nor any code |
| OAuth.SweepTakes | internal/store/queries/oauth.sql:21-26 | A client goes exactly when it was never approved and was registered before the cutoff, and nothing else changes |
| OAuth.OneTokenPerCode | internal/store/oauth.go:213-265 | Over any interleaving a code issues at most one token ever |
| OAuth.TokenOfCode | internal/store/oauth.go:213-265 | The token a code issued stays the one the code names, for its own account and client |
| OAuth.OneLiveToken | internal/store/oauth.go:227-233 | An account never holds two live tokens for one client |
| OAuth.MintsIff | internal/store/oauth.go:213-265 | An exchange mints exactly when the code is unspent and unexpired, no live token of the account for anything but this client has the name, and the secret is new; it is refused as invalid exactly for the code, and otherwise changes nothing |
| OAuth.MintedIsLive | internal/store/queries/oauth.sql:60-63 | A mint adds one token that is live, with the grant's name and secret, for the account and client of the code it spends |
| OAuth.LiveUntilTakenBack | internal/store/oauth.go:213-265 | Over every run a minted token stays as it was minted, and is live until exactly a revocation by name or a later mint for the same account and client |
| OAuth.MintTouchesOnly | internal/store/oauth.go:227-233 | A mint revokes exactly this account's live tokens for this client |
| OAuth.StampAndCodeTogether | internal/store/oauth.go:129-151 | In every reachable state an approved client has the code it was stamped for, and a code's client is approved |
| OAuthGrant.GrantStore.GrantClientToken | internal/store/oauth.go:213-265 | Spend, revoke, mint and record are one step or rolled back, and a mint leaves a live token with the grant's own name and secret |
| OAuthGrant.GrantStore.ApproveClientAndCreateCode | internal/store/oauth.go:129-151 | The stamp and its code land together or not at all |
| OAuth.ApproveWrites | internal/store/oauth.go:129-151 | Refused exactly for an unknown client or a code already there; else the code's row holds what was asked, unspent, and its client is approved |
| OAuthGrant.Service.Grant | internal/identity/oauthgrant.go:180-247 | A granted exchange spent its own code once with every field matched; one refused as invalid met a code not to be exchanged for it and changed no row but, for a replay with a wrong verifier, the one token that code issued; one that failed otherwise was hindered or out of names and changed nothing but, its answer lost, its own code's one exchange (section 4.1.3 of RFC 6749, section 4.6 of RFC 7636) |
| OAuthGrant.Service.RevokeReplayed | internal/identity/oauthgrant.go:256-263 | Asks to revoke the token the replayed code names, and no other; landed, it is revoked |
| Invites.StepKeeps | internal/store/invites.go:50-198 | Every transaction keeps the invite ledger's invariants |
| Invites.LedgerBalances | internal/store/invites.go:147-198 | A code names one invite, spent invites and registered accounts correspond one to one, no invite is both spent and revoked, a bound one yields only its address, and at most one account is the admin |
| Invites.OneAccountPerInvite | internal/store/invites.go:135-146 | Racing registrations on one code, or one address, end with one account |
| Invites.RevokedNeverSpent | internal/store/invites.go:120-133 | A revoked invite was live when revoked and is never spent |
| Invites.RevokesIff | internal/store/invites.go:120-133 | An invite is revoked exactly when it is unspent, unrevoked and before its expiry, and nothing else of it changes |
| Invites.MintsIff | internal/store/invites.go:50-88 | A mint is refused exactly for an address that has an account, a code already there or a maker that is not; else the invite is there, unspent |
| Invites.SpendMakes | internal/store/invites.go:147-198 | A spend adds one account with that address, the administrator exactly when no person had registered before, and marks that invite spent on it |
| Invites.TakenAddressLeavesInvite | internal/store/invites.go:144-146 | A spend succeeds exactly on an invite that is unspent, unrevoked and before its expiry, with a free address; a taken address refuses it and leaves the invite as it was |
| Registration.InviteStore.LiveInvite | internal/store/invites.go:107-117 | Finds the invite exactly when code and address match and it is unspent, unrevoked and before its expiry |
| Registration.InviteStore.SpendInviteAndCreateAccount | internal/store/invites.go:147-198 | The guarded spend and the insert are one step, and land only on an invite that is unspent, unrevoked and before its expiry |
| Registration.Service.Register | internal/identity/service.go:236-288 | A new account means this call spent the very invite the code names for that address, at an instant of the call before the invite's expiry; every other outcome changed no row, and a taken address hears what a fresh one hears; an invite refusal means that at some moment of the call no live invite matched, every other refusal is for what it says and found one that did, and unavailable means a call went unanswered |
| Limiters.PenaltyIsTheDoublingClamped | internal/identity/limiter.go:179-186 | For every failure count the wrapping int64 shift and two-sided clamp equal min(30s * 2^(n-5), 15min) |
| Limiters.PenaltyMonotone | internal/identity/limiter.go:179-186 | The penalty never falls as failures mount and stays between base and ceiling |
| Limiters.IdleIsFull | internal/identity/limiter.go:112-137 | A bucket idle for its fill time after its highest reading is full again, whatever it held |
| Limiters.ShippedFits | internal/identity/limiter.go:29-58 | Both shipped settings fill in a minute, which leaves readings half an hour to be processed out of order in |
| Limiters.WindowBound | internal/identity/limiter.go:112-137 | In any window one client is let through at most capacity plus one call per refill interval, in whatever order the readings are processed |
| Limiters.RefusedFor | internal/identity/limiter.go:112-137 | With a client's readings in order, a call is refused only when since some start more than capacity - 1 and one a refill interval of its calls were let through |
| Limiters.SpacedNeverRefused | internal/identity/limiter.go:112-137 | A client that waits a refill interval between its calls is never refused |
| Limiters.BurstExactly | internal/identity/limiter.go:29-58 | At one moment a client is let through exactly as often as the bucket holds, ten times or thirty |
| Limiters.ShippedWindow | internal/identity/limiter.go:29-58 | What is shipped lets one client through at most twenty times in any minute, or sixty on the deploy path |
| Limiters.Limiter.Allow | internal/identity/limiter.go:112-137 | Answers as a limiter that never evicts a bucket would, as long as no reading has lagged the latest by more than the settings leave room for |
| Limiters.Limiter.LockedOut | internal/identity/limiter.go:149-160 | Locked exactly inside the penalty window, with the time left |
| Limiters.Limiter.Failed | internal/identity/limiter.go:165-187 | The count grows by one, or starts at one for a key never seen or swept after an hour unlocked, the penalty follows it, and no other key's lockout moves |
| Limiters.Limiter.Succeeded | internal/identity/limiter.go:190-194 | Clears this key's run and no other |
| Limiters.Limiter.Sweep | internal/identity/limiter.go:198-213 | At most once an hour, and then exactly what nobody touched for an hour goes, a live lockout excepted; eviction never ends one, now or later |
| Checksum.ConfigText | internal/deploy/deploy.go:336-349 | Whatever order the map is ranged over, the text is the fields of its keys in sorted order |
| Sorting.LexMeans | internal/deploy/deploy.go:341 | The order of keys is byte by byte, a prefix first |
| Checksum.TextIgnoresOrder | internal/deploy/deploy.go:336-342 | A configuration's keys sort one way only |
| Checksum.FieldReadsBack | internal/deploy/deploy.go:342-347 | A length-prefixed field is read one way only, for arbitrary bytes |
| Checksum.FieldText | internal/deploy/deploy.go:345 | A short key and value are written as their lengths, colons, an equals sign and a newline |
| Checksum.TextNamesConfiguration | internal/deploy/deploy.go:329-335 | Two configurations give the hash the same bytes exactly when they are the same map |
| Text.DecimalParses | internal/deploy/deploy.go:345 | The decimal length prefix reads back as the number |
| Text.DecimalDigits | internal/deploy/deploy.go:345 | In base ten, most significant digit first, with no zero in front |
| Ports.AllowedPortRanges | internal/deploy/portrange.go:30-49 | Ranges are ordered, at least one wide and apart, and cover exactly the ports that are no record of the list |
| Ports.ExactIffOnlyRepeatsRunBack | internal/deploy/portrange.go:24-29 | The complement is exact, for any list, exactly when no entry runs back except to repeat an earlier one |
| Ports.OutOfOrderWidens | internal/deploy/portrange.go:26-29 | Port 25 listed after 80 stays reachable |
| Ports.LoadPortBound | internal/config/isolation.go:84-119 | Yields the usable ports sorted and without repeats, and accepts only a list that is all usable, blocks something and leaves something |
| Ports.PublicEgressPorts | internal/deploy/networkpolicy.go:137-150 | A TCP port is permitted exactly when in range and not blocked; UDP is unconditioned |
| Ports.ComposeBound | internal/config/isolation.go:84-119 | From configured list to policy: an accepted list is an exact bound with at least one port open and one closed |
| Ids.Generator.New | internal/ids/ids.go:68-77 | Whatever order clock readings arrive in, a process draws strictly increasing ids, stamped with the reading or the high water mark; none is drawn exactly when a climb within one millisecond leaves the eighty bits |
| Ids.RestartKeepsOrderIff | internal/ids/ids.go:44-52 | Across a restart order is kept, whatever entropy is drawn, exactly when the stamp is a later millisecond |
| Ids.RestartedSequence | internal/ids/ids.go:68-77 | Two processes' ids are one increasing sequence when the clock moved on in between |
| Paths.CleanRelative | internal/uploads/pack.go:86-89 | A clean relative name is plain parts, or climbs at its front, and splits back to the parts it was joined from |
| Paths.WalkLaws | internal/uploads/pack.go:86 | What cleaning is, part by part: nothing and a dot say nothing, a plain part goes down, two dots take it back, and above the start they stay |
| Paths.PackPathIff | internal/uploads/pack.go:82-91 | A name may be packed exactly when it is relative, holds no NUL, stays inside the tree and is not the tree itself |
| Paths.PackPathPlain | internal/uploads/pack.go:82-91 | An accepted name cleans to plain parts and cleaning again changes nothing |
| Paths.SafePathIff | internal/source/extract.go:115-136 | An entry name is accepted exactly when relative with no backslash, colon or climbing part, and always lands under the root |
| Paths.PackedIsSafe | internal/source/extract.go:115-136 | A packed name never trips the absolute or climbing checks |
| Packing.Pack | internal/uploads/pack.go:33-76 | Packs exactly the sets whose every name is accepted, in the order of the clean names, however the map is ranged over |
| Packing.DeterministicIff | internal/uploads/pack.go:38-49 | Every range over the map packs to the same archive exactly when no two names clean to one path with different bodies |
| Packing.TwoSpellings | internal/uploads/pack.go:42-49 | A packable set whose archive depends on the map's order |
| Extraction.Workspace.Extract | internal/source/extract.go:58-111 | The loop writes entry by entry and stops at the first refusal |
| Extraction.NothingEscapes | internal/source/extract.go:58-136 | Whether or not the archive is accepted, nothing outside the root is created and nothing already there is changed |
| Leftovers.LeftAloneIff | internal/source/extract.go:54-56 | The destination is left as it stood exactly when every entry that would put something there comes after one that is refused, or past the entry limit |
| Leftovers.HalfUnpacked | internal/source/extract.go:54-56 | A file and then a climbing name: refused, and the file stays |
| Leftovers.CutShort | internal/source/extract.go:139-165 | A file past what is left of the budget is refused and left behind, cut one byte past it |
| Extraction.AcceptedLeavesExactly | internal/source/extract.go:58-165 | An accepted archive leaves exactly its regular entries' files, each path once, within both caps |
| Detection.BoundedReader.ReadFull | internal/source/detect.go:77-87 | A read is refused exactly when it passes the bound |
| Detection.HasRootDockerfile | internal/source/detect.go:29-65 | Answers exactly for streams inside both limits, and not closed at the very end of the bound, and finds exactly the regular entries cleaning to Dockerfile |
| Detection.DetectionAgrees | internal/source/detect.go:12-28 | When both accept an archive, detection is true exactly when the unpacked tree has a regular file at root/Dockerfile |
| RoundTrip.AcceptedIff | internal/source/extract.go:58-165 | An archive of regular files is accepted exactly when names are safe, paths stay apart and clear, and both limits hold |
| RoundTrip.BudgetIs | internal/source/extract.go:139-165 | The byte limit, in sums: something of it is left before each file, and the bodies come to no more than it |
| RoundTrip.RoundTripIff | internal/uploads/pack.go:33-91 | Pack then Extract into an empty root succeeds exactly when clean names hold no backslash or colon, none is or lies under another, and both limits hold, for every map order |
| RoundTrip.RoundTripTree | internal/uploads/pack.go:33-91 | And then the unpacked tree is exactly clean name to body |

## Left out

- SQL text, migrations, JSON text, gzip and tar bytes, hashing and argon2: tables, snapshot shapes, entry lists and
  uninterpreted functions stand for them; nothing is claimed of the hashes themselves.
- HTTP, MCP transport, pages, mail, the registry, object storage and the Kubernetes API: their answers are arbitrary.
- Uploads and their fetch tokens, and the retention sweep's deletion of them. Nothing in the program calls the
  retention sweep (`internal/store/uploads.go:209-246`), so the reconcile loop is modelled among runs without it.
- Timestamps as text: `internal/ids/clock.go:28-32` drops trailing zeros, so text order is not time order; times are integers.
- Event detail text, reason messages, audit rows, reserved app names and the derivation of slugs from names.
- Build Jobs as objects: a Job's state is an arbitrary answer, so that the watchdog's delete reached the Job's own
  namespace, and that the Job is gone afterwards, is not stated.
- Image pull secrets, quotas, limit ranges, services and ingresses: a namespace here is its fence, its Secret and its workload.
- A namespace that is terminating: deletion is immediate.
- PolicySweep, suspension's scaling, log redaction, redirect URI checks, client registration's bounds, backups and the tunnel watch.
- Reconciling.Reconciler.Sweep: a sweep whose listing was not heard drives nothing, as in the source.
- Reconciling.Reconciler.Tick: a row handed back by recovery may still be expired in the same tick when it is overdue, as in the source.
- Limiters.WindowBound: tokens are real numbers, so floating point rounding is not modelled.
- Releases.BoundsOverRuns: needs each set_config call to be one step; what overlapping calls can do is in ConfigTools.
- Tables.SnapshotRoundTrip: keys and values are valid UTF-8, as what came in through JSON is; the stored JSON replaces
  bytes that are not.
- Leftovers.LeftAloneIff: a stream breaks between entries here; one that breaks inside a body leaves what was read of it.
- RoundTrip.RoundTripIff: a file system's own limits on names and space, which can refuse more, are not modelled.
- Status.ByInstantFacts: within one stamp, event ids stand in the order of writing, which across a restart is as
  `Ids.RestartKeepsOrderIff` says.
- Extraction.NothingEscapes: permissions and links are not modelled, and a root of the file system itself is refused every entry but its own.
- Ports.LoadPortBound: splitting on commas, trimming and Atoi are given as already parsed entries.
- Checksum.TextNamesConfiguration: stops at the bytes the hash is fed.
