# shotty, modelled in Dafny

shotty is a small command-line tool for managing EC2 instances, their volumes and
volume snapshots, scoped to a project by the `proj` tag. This project models its core
(`shotty/shotty.py`) and proves properties of it:

- **Project scoping** (`filter_instances`). The working set is either the instances
  tagged `proj=<project>` or, when no project is given (or it is empty), the whole fleet.
  Fleet order is kept.
- **Pending detection** (`has_pending_snapshot`). Only the newest snapshot of a volume
  is examined.
- **Snapshot creation** (`instances snapshot`, `create_snapshots`). Each instance in
  scope is stopped, then waited on. Each of its volumes without a pending snapshot gets
  a snapshot. The instance is then started and waited on. The provider's calls are
  recorded in the call log of a `Provider.Cloud` object. Its fault map says which
  calls raise which error. The first error ends the whole batch, because the code
  catches nothing here.
- **Stop and start** (`instances stop` / `instances start`). One call per instance in
  scope. A `ClientError` is reported ("Could not stop …") and the loop continues. Any
  other error ends the command.
- **Listings** (`snapshots list`, `volumes list`, `instances list`). These are the rows
  each command prints, column by column:
  - the truncation of a snapshot history at its newest completed snapshot, unless
    `--all` is given;
  - the `<size>GiB` and `Encrypted` / `Not Encrypted` columns;
  - the project column, read from the instance's tags with the last `proj` tag winning,
    or `<no project>` when there is none.

Modules, one per file: `Wrappers` (Option), `Fleet` (instances, volumes, snapshots,
tags), `Locator`, `Inspector`, `Provider`, `Orchestrator` and `SnapshotProperties`,
`Power`, `Decimal` (`str` of a natural number) and `Listing`.

Unlike `stop_call` and `start_call`, which catch `ClientError` around each call,
snapshot creation isolates nothing: an exception from `stop`, a wait, `create_snapshot`
or `start` escapes the loop. The model follows the code. `SnapshotProperties.FailureEndsBatch`
and `SnapshotProperties.ScenarioStopFailureAbortsBatch` state the consequence: instances
after the failing one get no call, and if the failure comes before the failing
instance's start call, that instance gets no start call.

## Model

| member | source | states |
|---|---|---|
| Locator.TaggedWith | shotty/shotty.py:10-12 | The provider-side filter `tag:proj=p` keeps exactly the instances that have the tag (proj, p), and never yields more instances than the fleet holds. |
| Locator.FilterInstances | shotty/shotty.py:8-16 | The working set holds exactly the fleet's instances selected by the project. With no project, or an empty one, it is the whole fleet unchanged. |
| Locator.TaggedWithAppend | shotty/shotty.py:10-12 | Filtering distributes over concatenation, so fleet order is preserved. |
| Locator.TaggedWithSingleton | shotty/shotty.py:10-12 | A single instance is kept exactly when it carries the tag. |
| Locator.FilterIdempotent | shotty/shotty.py:8-16 | Filtering an already filtered working set by the same project changes nothing. |
| Locator.TaggedWithIdempotent | shotty/shotty.py:10-12 | Applying the tag filter twice equals applying it once. |
| Inspector.EmptyHistoryNotPending | shotty/shotty.py:18-20 | A volume with no snapshots is never pending. |
| Inspector.OnlyNewestExamined | shotty/shotty.py:18-20 | Two volumes whose newest snapshots have the same state agree on pending, whatever their older history. |
| Inspector.OlderPendingIgnored | shotty/shotty.py:18-20 | A volume whose newest snapshot is not pending is not pending, even with older pending snapshots. |
| Inspector.PendingAfterCreate | shotty/shotty.py:18-20 | After a new pending snapshot is put at the head of the history, the volume is pending. |
| Provider.Cloud.Receive | shotty/shotty.py:94-107 | Each call is appended to the call log, and its outcome is the fault map's answer for it. |
| Provider.Cloud.Stop | shotty/shotty.py:94 | `i.stop()` is logged as StopInstance and answered by the fault map. |
| Provider.Cloud.AwaitStopped | shotty/shotty.py:95 | `i.wait_until_stopped()` is logged as WaitUntilStopped and answered by the fault map. |
| Provider.Cloud.Snapshot | shotty/shotty.py:102 | `v.create_snapshot(Description=…)` is logged as CreateSnapshot of that volume with that description. |
| Provider.Cloud.Start | shotty/shotty.py:106 | `i.start()` is logged as StartInstance and answered by the fault map. |
| Provider.Cloud.AwaitRunning | shotty/shotty.py:107 | `i.wait_until_running()` is logged as WaitUntilRunning and answered by the fault map. |
| Provider.Cloud.constructor | shotty/shotty.py:5-6 | A fresh provider session has an empty call log and the given fault map. |
| Orchestrator.ExecuteIsPrefix | shotty/shotty.py:92-107 | The calls actually made are always a prefix of the planned calls. |
| Orchestrator.ExecuteRaisesAtLast | shotty/shotty.py:92-107 | When the run raises, the last call made is the faulty one, it raised the run's error, and every earlier call succeeded. |
| Orchestrator.ExecuteCompletes | shotty/shotty.py:92-109 | The run finishes exactly when no planned call is faulty, and it then made every planned call. |
| Orchestrator.ExecuteAppend | shotty/shotty.py:92-107 | Running two plans one after the other equals running them as one plan. The second plan runs only if the first finished. |
| Orchestrator.RanThen | shotty/shotty.py:92-107 | A finished run followed by another run is a run of the concatenated plan. |
| Orchestrator.RanAbort | shotty/shotty.py:92-107 | A run that raised is also a run of any longer plan that starts with it. |
| Orchestrator.PlanAppend | shotty/shotty.py:92 | The plan for a concatenated working set is the concatenation of the plans. |
| Orchestrator.SnapshotVolumes | shotty/shotty.py:97-102 | The volume loop logs exactly the run of the volume plan: a snapshot for each volume without a pending snapshot, in order, and none for the others. It stops at the first error. |
| Orchestrator.SnapshotInstance | shotty/shotty.py:93-107 | Per instance, the log gains exactly the run of stop, wait-stopped, the volume plan, start and wait-running, ending at the first error. |
| Orchestrator.SnapshotEach | shotty/shotty.py:92-107 | The instance loop logs exactly the run of the whole plan, instance after instance, and returns the first error or Done. |
| Orchestrator.CreateSnapshots | shotty/shotty.py:89-111 | `create_snapshots(project)` logs exactly the run of the plan for the working set of the project. |
| SnapshotProperties.VolumeActionsAppend | shotty/shotty.py:97-102 | The volume plan distributes over concatenation. |
| SnapshotProperties.VolumeActionsCount | shotty/shotty.py:97-102 | The volume plan has one call per volume without a pending snapshot. |
| SnapshotProperties.VolumeCreatePosition | shotty/shotty.py:97-102 | The snapshot call for an eligible volume comes right after the calls for the eligible volumes before it. |
| SnapshotProperties.VolumeActionsEligible | shotty/shotty.py:97-102 | Every call in the volume plan creates a snapshot of one of the volumes that had no pending snapshot. |
| SnapshotProperties.EligibleVolumePlanned | shotty/shotty.py:97-102 | Every volume without a pending snapshot has its snapshot call in the volume plan. |
| SnapshotProperties.NoCreateForPending | shotty/shotty.py:97-102 | No run, with any faults, ever creates a snapshot of a volume whose newest snapshot is pending, or of a volume outside the working set. |
| SnapshotProperties.PlannedCreateEligible | shotty/shotty.py:92-102 | Every snapshot call in the plan belongs to an eligible volume of an instance in the working set. |
| SnapshotProperties.EveryEligibleVolumeCreated | shotty/shotty.py:92-109 | When the command finishes, every eligible volume of every instance in scope got a snapshot with the fixed description. |
| SnapshotProperties.InstancePlanned | shotty/shotty.py:92-107 | Every call for an instance in scope is part of the plan. |
| SnapshotProperties.InstanceWithoutVolumes | shotty/shotty.py:93-107 | An instance without volumes is still stopped, waited on, started and waited on. |
| SnapshotProperties.CleanRun | shotty/shotty.py:92-109 | With no faults on the plan, the run makes every planned call and finishes. |
| SnapshotProperties.FailureEndsBatch | shotty/shotty.py:92-107 | When instance k's calls fail and the earlier ones did not, the run is the earlier instances' calls plus instance k's partial run, ending with its error. Later instances get no call. |
| SnapshotProperties.RecordKeepsScope | shotty/shotty.py:10-12 | Recording new snapshots does not change which instances carry a tag. |
| SnapshotProperties.RecordKeepsSelection | shotty/shotty.py:8-16 | Recording new snapshots does not change the working set of a project. |
| SnapshotProperties.RecordedVolumePending | shotty/shotty.py:18-20 | After a finished run, every volume in scope whose snapshot was recorded is pending. |
| SnapshotProperties.RerunCreatesNothing | shotty/shotty.py:97-102 | Re-running right after a finished run, while the new snapshots are still pending, creates no snapshot, whatever the second run's faults. |
| SnapshotProperties.ScenarioFreshVolume | shotty/shotty.py:92-109 | One instance with one volume and no history: stop, wait, snapshot, start, wait, Done. |
| SnapshotProperties.ScenarioPendingVolume | shotty/shotty.py:97-100 | A volume whose newest snapshot is pending is skipped; the instance is still stopped and started. |
| SnapshotProperties.ScenarioStopFailureAbortsBatch | shotty/shotty.py:92-94 | A ClientError on the first instance's stop ends the command: the second instance gets no call. |
| Power.ToggleAttemptsInOrder | shotty/shotty.py:143-168 | The k-th call is the stop (start) of the k-th instance in scope. A raised run ends at a call whose non-ClientError it raised. A finished run made one call per instance. |
| Power.ClientErrorsDoNotStopBatch | shotty/shotty.py:145-168 | When every failure is a ClientError, the command finishes and every instance in scope got its call. |
| Power.DoneOnlyIfClientErrors | shotty/shotty.py:145-168 | Conversely, the command finishes only if every failing call raised a ClientError; any other error ends it. |
| Power.AttemptsAreReported | shotty/shotty.py:143-168 | Every instance attempted is announced, and one whose call raised a ClientError gets the "Could not stop/start <id>. <error>" line. |
| Power.ToggleLinesExact | shotty/shotty.py:143-168 | The printed output, line by line: for each attempted instance in selection order, its "stopping/starting <id>" line followed, only when its call raised a ClientError, by its "Could not stop/start <id>. <error>" line; nothing for instances not attempted. |
| Power.SetDesiredState | shotty/shotty.py:143-168 | The loop's call log, printed lines and outcome are those of the specification `Toggle`. |
| Power.Attempt | shotty/shotty.py:146-165 | The call is the stop or start of that instance, logged and answered by the fault map. |
| Power.StopCall | shotty/shotty.py:139-151 | `stop_call(project)` stops the working set as `Toggle` describes, without waiting. |
| Power.StartCall | shotty/shotty.py:158-170 | `start_call(project)` starts the working set as `Toggle` describes, without waiting. |
| Decimal.NatToString | shotty/shotty.py:75 | `str(size)` is a non-empty string of digits with no leading zero. |
| Decimal.DecimalRoundTrip | shotty/shotty.py:75 | Reading the numeral back gives the size. |
| Decimal.NatToStringInjective | shotty/shotty.py:75 | Different sizes never get the same numeral. |
| Listing.ShownSnapshotsShape | shotty/shotty.py:42-52 | The listed part of a history is a prefix of it. With `--all` it is the whole history. Otherwise it has no completed snapshot before its last element, and it stops short only right after a completed one. |
| Listing.ShownSnapshotsUpTo | shotty/shotty.py:42-52 | Any prefix the loop can stop at is exactly the listed part. |
| Listing.ShownUpToNewestCompleted | shotty/shotty.py:52 | Without `--all`, a history is listed up to and including its newest completed snapshot. |
| Listing.ShownWholeWithoutCompleted | shotty/shotty.py:42-52 | Without `--all`, a history with no completed snapshot is listed whole. |
| Listing.ListHistory | shotty/shotty.py:42-52 | The innermost loop with its `break` prints the rows of exactly the listed part of the history. |
| Listing.ListVolumes | shotty/shotty.py:41-52 | The volume loop prints the listed snapshots of each volume, volume by volume. |
| Listing.SnapshotsCall | shotty/shotty.py:37-54 | `snapshots_call` prints the rows of the working set, instance by instance and volume by volume. |
| Listing.SnapshotLinesExact | shotty/shotty.py:42-50 | The rows of one history are its listed snapshots, one row each, in order. |
| Listing.SnapshotLinesCover | shotty/shotty.py:42-50 | A row is printed for a volume exactly when it describes one of its listed snapshots. |
| Listing.VolumeSnapshotRowsCover | shotty/shotty.py:41-52 | The rows for one instance are exactly its volumes' listed snapshots. |
| Listing.SnapshotRowsCover | shotty/shotty.py:39-52 | A row is printed exactly when it names an instance in scope, one of its volumes and a listed snapshot of that volume. |
| Listing.EncryptionColumn | shotty/shotty.py:76 | The column reads "Encrypted" exactly when the volume is encrypted, and "Not Encrypted" otherwise. |
| Listing.SizeColumnReadsBack | shotty/shotty.py:75 | The size column is a numeral followed by "GiB", and the numeral reads back as the volume's size. |
| Listing.VolumesCall | shotty/shotty.py:65-79 | `volumes_call` prints one row per volume of each instance in scope, in order. |
| Listing.VolumeRowsCover | shotty/shotty.py:67-77 | A row is printed exactly when it describes a volume of an instance in scope. |
| Listing.InstanceVolumeRowsCover | shotty/shotty.py:69-77 | The rows for one instance are exactly its volumes' rows. |
| Listing.ScopedVolumesBelongToProject | shotty/shotty.py:67-77 | With a project, every row is a volume of an instance tagged with that project. |
| Listing.ListCall | shotty/shotty.py:118-132 | `list_call` prints one row per instance in scope, the k-th row describing the k-th instance. |
| Listing.TagMapKeys | shotty/shotty.py:122 | A key is in the tag dictionary exactly when some tag has it. |
| Listing.TagMapLastWins | shotty/shotty.py:122 | A key maps to the value of the last tag with that key. |
| Listing.UntaggedShowsNoProject | shotty/shotty.py:122-129 | An instance without a `proj` tag, including one with no tag list, shows `<no project>`. |
| Listing.LastProjectTagShown | shotty/shotty.py:122-129 | With several `proj` tags, the column shows the last one's value. |
| Listing.ProjectColumnMatchesFilter | shotty/shotty.py:10-12 | With at most one `proj` tag, an instance is tagged `proj=p` exactly when it has a `proj` tag and its column shows `p`. |
| Listing.ScopedListingShowsProject | shotty/shotty.py:120-129 | With a project and single `proj` tags, every printed row shows that project. |

## Left out

- The boto3 session and the `shotty` profile (shotty/shotty.py:5-6) are not modelled. The provider is the `Cloud` object: a call log and a map from calls to the errors they raise.
- Command-line parsing (click groups, options, help texts) is left out. Each command is a method that takes its options as parameters.
- Printing is left out. The listings return their rows as records of columns; the joining with ", " and the output stream are not modelled. `stop_call` / `start_call` return their lines.
- The start-time column of `snapshots list` (`start_time.strftime('%c')`) is left out, because it depends on the locale and on clock values.
- `wait_until_stopped` / `wait_until_running` poll the provider until the state is reached or a timeout raises. Each wait is modelled as a single call that either succeeds or raises.
- Snapshot state changes on the provider's side ("pending" → "completed") happen asynchronously and are not modelled. `SnapshotProperties.RecordFleet` records new snapshots as pending for the re-run property.
- Orchestrator.CreateSnapshots: the progress lines it prints ("Stopping inst…", "Skipping…", "Creating snapshots…", "Starting inst…", "Job done!!") are not modelled. A finished run is the `Done` outcome.
- The instance state reported by the provider is not updated by stop or start, because the model records calls, not the provider's resulting state.
- EC2 tag-filter wildcards (`*`, `?` in the filter value) are not modelled: the project name is matched literally.
- The tag dictionary built at shotty/shotty.py:70 in `volumes_call` is never used, so it has no counterpart in the model.
- The model assumes each volume id appears under one instance only. With a volume attached to several instances, the code reads the volume's history afresh and would skip its second occurrence once the first snapshot is pending, while the model creates a snapshot for each occurrence. `SnapshotProperties.RerunCreatesNothing` identifies the created volumes by id.
- Reads never fail in the model. In the code, listing a volume's snapshots (shotty/shotty.py:19), an instance's volumes (shotty/shotty.py:97) and the lazily fetched working set (shotty/shotty.py:92, 143, 162) are provider calls that can raise, for example a throttling `ClientError`. Any of them ends `create_snapshots`, and in `stop_call` / `start_call` it escapes too, because the loop header is outside the `try`. In the model only stop, the two waits, snapshot creation and start can fail.
- Listing.ProjectColumnMatchesFilter: stated only for instances with at most one `proj` tag. With several, the filter matches any of them while the column shows the last, and the two can disagree.
