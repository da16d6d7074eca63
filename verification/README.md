# Routing packager: graph builds and packaging, verified in Dafny

The routing packager builds Valhalla graphs and packs parts of them into ZIP files. One builder
container per provider and any number of workers share a volume and a database, and coordinate over
two things only: the `graph` symlink of each provider, which is moved by an atomic rename, and the
rows of `graph_locks`, which are shared or exclusive leases on directories with a TTL. This project
models that coordination and the code on both sides of it, and proves what the code and its
documentation promise.

Check it with `dafny verify dfyconfig.toml` (Dafny 4.11).

## How the model is built

**The protocol as a transition system** (`Protocol.dfy`). A state holds the lock table, the clock of
the database, the clock that names generations, the links, the staged `graph.tmp` links, the
generation directories, and where every builder and worker is in its program. An action is one
access to the shared state: a transaction on the lock table, one filesystem operation, a clock tick,
a failure, or a crash, which is possible after every single step. A transaction carries its own
timestamp, which may lag behind the clock. Runs are of any length, with any number of processes.
`LeaseOwnership.dfy`, `GenerationSafety.dfy` and `ReaderSafety.dfy` prove what holds in every state
of every run; `ExpiredLeases.dfy` gives two runs that show what happens when a lease expires while its
holder still relies on it.

**The program text** (`Deployment.dfy`, `Builder.dfy`, `BuildGraph.dfy`, `BuildRuns.dfy`,
`Packages.dfy`). The imperative code is written as methods over a `Deployment`, whose fields every
other process may change between any two accesses (`Deployment.Others`). Each access is recorded as
an action of the transition system in the ghost field `run`, and `Deployment.Valid` says that the
fields are the last state of a genuine run. So everything proved of runs holds of the program, and
the contracts can speak of what happened during a call. `Interference.dfy` says what a process may
rely on while the others act.

**The smaller parts.** `Locks.dfy`: the table itself. `BuildStatus.dfy`: the status file and the
stage timings. `Names.dfy`: the names of generations. `Tiles.dfy`, `Bboxes.dfy`, `Decimals.dfy`:
tile paths, tile boxes, and the choice of tiles. `Jobs.dfy`: the order of the update jobs.
`Updates.dfy`: what a build is for, the packages that are made from it.

### Words used in the contracts

- A lease is *live* while less than the TTL has passed since the transaction that inserted its row.
- A run is *in time* for a provider (`RunsInTime`) if in each of its states every builder of that
  provider inside `run_build` still has a live provider lease, that is, if `GRAPH_LOCK_TTL` exceeds the
  duration of each of its builds. A property that needs this, or a live lease of a worker, says so; it
  needs nothing of the builders of other providers, which may take as long as they like.
- A generation directory is *whole* when every stage of the build ran to its end in it,
  `build_meta.json` is written and no removal of it has begun. `published` is a history variable:
  what a generation held when the link was moved to it.
- *Stale* generations are a provider's directories that the link does not name.
- A process is *kept out* (`KeptOut`) between two actions of a run if all it did there was to ask for
  one lease, and an unexpired row refused it each time.

### Assumptions

- `TMP_DATA_DIR` is canonical, so that resolved and listed paths compare equal; two names of one
  directory give one lock path (`routing_packager_app/utils/lock_utils.py:28-39`).
- `rmtree` really removes the directory, file by file, in any number of steps.
- Each of `_try_acquire` and `_release` is one atomic transaction, with a timestamp not later than
  real time. Ids of rows are never handed out twice.
- The clocks do not run backwards, and a sleep takes at least as long as asked.
- Nobody else deletes lock rows, directories or links.

### Where the code and its documentation part

- `routing_packager_app/utils/lock_utils.py:139-142` says that holding the shared lock guarantees the
  directory survives for as long as the caller reads. That is so while the lease is live
  (`ReadersReadFinishedGenerations`) and need not be afterwards: in the run of
  `LateReaderLosesItsGeneration` every builder is in time, and the generation is removed under a worker
  that has outlived its lease. What keeps a pruner out is an unexpired row, and nothing else
  (`PruneIsRefusedExactlyWhenHeld`).
- `routing_packager_app/graph_build/builder.py:7-9` promises at most two generations on disk. With
  `KEEP_GENERATIONS` = K the bound is K + 1 (`DiskBound`), which is two for the value in the code.
- Reaping is invisible if timestamps are in order. If not, a lagging transaction can find a row already
  reaped that is unexpired by its own timestamp. `ReapingShowsOutOfOrder` is such a history, and
  `ReapingShowsExactlyWhen` says of every history, by its requests and their timestamps, whether there
  is such a transaction in it. No lease that is live by the clock is affected
  (`TryAcquireOnLiveLeases`).
- `EXIT_FAILED` does not always mean that the link did not move: queueing the update comes after the
  swap and can fail on its own. `RunOnce` says which of the two it was.

## Model

| member | source | states |
|---|---|---|
| GraphLocks.EveryTableIsOk | routing_packager_app/utils/lock_utils.py:50-86 | After any history of transactions with any timestamps, each path has either shared rows only or exactly one exclusive row, and the id sequence is ahead of all rows |
| GraphLocks.ReapingIsInvisibleInOrder | routing_packager_app/utils/lock_utils.py:61-81 | With timestamps in order the reaped table gives every transaction the answer of leases that are never reaped, and shows the same unexpired leases |
| GraphLocks.ReapingShowsOutOfOrder | routing_packager_app/utils/lock_utils.py:61-81 | A history out of order in which the table grants a lease that the leases refuse |
| GraphLocks.ReapingShowsExactlyWhen | routing_packager_app/utils/lock_utils.py:61-81 | For every history with any timestamps: the answers are those of leases that are never reaped if and only if no request came that was kept out only by leases whose expiry an earlier request's timestamp had reached; until then the table holds exactly the other leases |
| GraphLocks.TryAcquireOnLiveLeases | routing_packager_app/utils/lock_utils.py:50-81 | Whatever the order, a transaction grants exactly when no row unexpired at its time conflicts, removes no live lease, and adds exactly the granted one |
| GraphLocks.ReleaseAfterReaping | routing_packager_app/utils/lock_utils.py:84-86 | Releasing a lease that was reaped, at any later time, removes nobody's row |
| GraphLocks.GraphLockTable.TryAcquire | routing_packager_app/utils/lock_utils.py:50-81 | Reap, query and insert, in place, commit exactly the table and the answer of the specification |
| GraphLocks.GraphLockTable.Release | routing_packager_app/utils/lock_utils.py:84-86 | Deletes the row with that id, if it is there, and nothing else |
| LeaseOwnership.EveryRunKeepsLeases | routing_packager_app/utils/lock_utils.py:50-86 | In every state of every run each live lease that a process believes it holds is in the table under its own name, path and mode |
| LeaseOwnership.LiveLeasesExclude | routing_packager_app/utils/lock_utils.py:112-129 | Two live leases on one path are the same lease or both shared |
| LeaseOwnership.OneBuilderInTime | routing_packager_app/graph_build/__main__.py:91-98 | At most one builder of a provider is within its provider lease |
| LeaseOwnership.ReleaseRemovesOwnRowOnly | routing_packager_app/utils/lock_utils.py:127-129 | In every run, leaving a context manager deletes no row of another process |
| LeaseOwnership.NoDeadlock | routing_packager_app/utils/lock_utils.py:150-176 | In every run, whoever is waited for is not waiting: no chain of waits is longer than one, and none is a cycle |
| LeaseOwnership.BlocksForLessThanTheTtl | routing_packager_app/utils/lock_utils.py:63-80 | In every run, a row, of a crashed holder too, keeps nobody out once the TTL has passed since it was inserted |
| GenerationSafety.EveryRunKeepsApart | routing_packager_app/graph_build/builder.py:141-394 | In every run, in time or not, links, staged links, builders and workers only ever deal with generations of their own provider |
| GenerationSafety.EveryRunKeepsFiles | routing_packager_app/graph_build/builder.py:141-394 | The inductive invariant of a provider's link, directories, builders and readers holds in every state of every run that is in time for that provider |
| GenerationSafety.NameIsFresh | routing_packager_app/graph_build/builder.py:279-281 | The name of a directory that `mkdir` can make was never published, and is newer than the one the link names |
| GenerationSafety.ListingPlans | routing_packager_app/graph_build/builder.py:168-175 | The listing leaves at most one generation to remove, of the same provider and not the current one |
| GenerationSafety.StepKeepsPublished | routing_packager_app/graph_build/builder.py:267-273 | No step of anybody changes a published generation, unless it is a step of its removal |
| GenerationSafety.LiveReaderKeepsPruneOut | routing_packager_app/graph_build/builder.py:183-186 | While a worker holds a generation with a live lease, no pruner is granted it |
| GenerationSafety.PruneIsRefusedExactlyWhenHeld | routing_packager_app/utils/lock_utils.py:61-81 | A pruner's transaction on a generation is refused if and only if a row on it is unexpired at the timestamp of the transaction |
| GenerationSafety.ReadIsRefusedExactlyWhenRemoved | routing_packager_app/utils/lock_utils.py:61-81 | A worker's transaction on a generation is refused if and only if an exclusive row on it is unexpired: workers let each other in |
| GenerationSafety.BuildIsRefusedExactlyWhenBuilding | routing_packager_app/utils/lock_utils.py:61-81 | A builder's transaction on its provider is refused if and only if a row on the provider's directory is unexpired |
| GenerationSafety.NobodyRemovesCurrent | routing_packager_app/graph_build/builder.py:166-173 | Nobody is removing the generation that a link names |
| ReaderSafety.ReadersReadFinishedGenerations | routing_packager_app/utils/lock_utils.py:150-176 | In time, a worker past the re-check with a live lease reads a whole generation exactly as published, and nobody is removing it, even if a pruner's own lease expired in the middle of a removal |
| ReaderSafety.LinkNeverDangles | routing_packager_app/graph_build/builder.py:373-393 | In time, a link that is set names an existing, whole generation, unchanged since it was linked, that nobody builds into or removes |
| ReaderSafety.LinksMoveForward | routing_packager_app/graph_build/builder.py:373-393 | In time, a link once set stays set and only moves to newer generations; what was published is never rewritten |
| ReaderSafety.ReadsAreOneSnapshot | routing_packager_app/worker.py:97-107 | Whatever a worker reads under one live lease, at any two moments, is the same content, however often the link moves |
| ReaderSafety.SwapAlwaysGoesThrough | routing_packager_app/graph_build/builder.py:386-393 | In time, a stale `graph.tmp` blocks nobody, and the rename makes the link name the builder's own, newer, whole generation |
| ReaderSafety.DiskBound | routing_packager_app/graph_build/builder.py:173-204 | In time, at most KEEP_GENERATIONS + 1 directories per provider in every reachable state, and one less while there is no link, also after failed, aborted and crashed builds |
| ReaderSafety.PruneWaitsForOneAtMost | routing_packager_app/graph_build/builder.py:178-204 | In time, a pruner never has more than one generation to wait for |
| ReaderSafety.HeldGenerationsAreNotRemoved | routing_packager_app/utils/lock_utils.py:157-176 | Without any assumption on provider leases: if every removal ends within its own lease, no removal touches a generation that a worker holds re-checked and live, and the directory is there |
| ExpiredLeases.OverlapLeavesLinkDangling | routing_packager_app/graph_build/__main__.py:94-109 | A reachable run in which a builder that outlived its provider lease moves the link to a generation another builder has removed |
| ExpiredLeases.LateReaderLosesItsGeneration | routing_packager_app/utils/lock_utils.py:139-142 | A reachable run, all builders of all providers in time, in which the generation a worker reads is removed because the worker outlived its shared lease |
| GraphDeployment.AttemptIsAnAction | routing_packager_app/utils/lock_utils.py:50-81 | An attempt at a lease by any caller is one action of the transition system, with the table's answer deciding where the caller goes |
| GraphDeployment.Deployment.AttemptAt | routing_packager_app/utils/lock_utils.py:61-81 | The in-place attempt commits exactly that action |
| GraphDeployment.Deployment.Acquire | routing_packager_app/utils/lock_utils.py:89-109 | Terminates; one attempt for a timeout of zero or less, at most ceil(timeout / 5) + 1 otherwise; sleeps after each refused attempt but the last, for five seconds or what is left of the timeout, so that it keeps polling; takes the lease with the first attempt that no unexpired conflicting row refuses, and gives up only at or past the deadline |
| GraphDeployment.Deployment.ResolveCurrent | routing_packager_app/utils/lock_utils.py:151-155 | The strict resolution of the link as it was in one state of the run |
| GraphDeployment.Deployment.CheckStillCurrent | routing_packager_app/utils/lock_utils.py:167-187 | Goes on reading if and only if the link still resolved to the generation in one state under the lease; otherwise the lease is given back |
| GraphDeployment.Deployment.TryCurrent | routing_packager_app/utils/lock_utils.py:150-176 | One attempt: reading under a lease, or no row left and the cause with the states of the run that show it; a timeout is a cause only once it has passed, with every request for the generation the link named refused |
| GraphDeployment.Deployment.EnterShared | routing_packager_app/utils/lock_utils.py:132-180 | Hands out a generation only if the link named it before its lease was granted and again after; otherwise leaves no row, and raises only if it was kept out of a generation for a whole timeout, the link had no target at some moment, or it moved at least twice; each attempt that timed out took its own timeout, and it sleeps only between two requests, for no more than the timeouts |
| GraphDeployment.Deployment.ExitShared | routing_packager_app/utils/lock_utils.py:173-178 | Leaving, normally or by an exception of the body, leaves no row behind |
| GraphDeployment.BothAttemptsFailed | routing_packager_app/utils/lock_utils.py:148-180 | Two failed attempts mean a generation refused at every request for at least the timeout, a link without target, or two moves of the link |
| GraphBuilder.SortedNewestFirst | routing_packager_app/graph_build/builder.py:173 | The listing holds exactly the given directories, newest first |
| GraphBuilder.RemoveGeneration | routing_packager_app/graph_build/builder.py:134-138 | The directory is removed under its exclusive lease, the lease is given back, and nothing else changes |
| GraphBuilder.RemoveNext | routing_packager_app/graph_build/builder.py:182-204 | A single attempt, then a patient one: the generation is removed, or nothing is, and then the timeout has passed and somebody held the generation each time it was asked for |
| GraphBuilder.PruneGenerations | routing_packager_app/graph_build/builder.py:141-206 | Removes exactly what is neither current nor among the newest KEEP_GENERATIONS - 1 others and returns it newest first; on a BuildError the removed ones are a proper prefix of that list, the timeout has passed, and the next one was held each time it was asked for; in time all its sleeping adds up to one timeout at most |
| GraphBuilder.PruneKeepsTheNewest | routing_packager_app/graph_build/builder.py:173-206 | What stays besides the current generation are exactly the newest KEEP_GENERATIONS - 1, each newer than each removed one; the link and its target are untouched |
| GenerationNames.NewerNameSortsLater | routing_packager_app/graph_build/builder.py:28 | For years of four digits, names sort as strings exactly as the moments they format, and different moments have different names |
| GenerationNames.NamesSortByTime | routing_packager_app/graph_build/builder.py:172-173 | The string order of directory names is the order of the stamps by which the model compares generations |
| GenerationNames.NameExample | routing_packager_app/graph_build/builder.py:28 | What a name looks like |
| GraphBuilding.UpdatePbf | routing_packager_app/graph_build/builder.py:247-264 | Returns normally if and only if passes = 0 or the exit codes are 1, ..., 1, 0 within the limit, and runs no pass more |
| GraphBuilding.FetchPbf | routing_packager_app/graph_build/__main__.py:102-105 | Downloads a missing PBF or updates an existing one; succeeds exactly if that leaves a current PBF; touches no graph |
| GraphBuilding.RunStage | routing_packager_app/graph_build/builder.py:75-98 | A program writes only into the new directory; in time the stage is done exactly if its program was run and exited with zero |
| GraphBuilding.RunStages | routing_packager_app/graph_build/builder.py:284-345 | All stages in their order, elevation only if wanted, stopping at the first that fails; the status calls between them |
| GraphBuilding.BuildGraph | routing_packager_app/graph_build/builder.py:267-347 | All stages, each with exit code zero, in their order in a fresh directory named by the clock, or a failure: in time the directory the clock named was there already, or a program's exit code was not zero; nothing existing is changed in either case |
| GraphBuilding.WriteBuildMeta | routing_packager_app/graph_build/builder.py:350-370 | Adds the metadata to the new directory only |
| GraphBuilding.SwapGraphLink | routing_packager_app/graph_build/builder.py:373-394 | In time succeeds exactly if the system permits the file operations, whatever an earlier crash staged; the builder then has moved a link exactly once, to its own generation as it was built |
| BuildRuns.BuildUnderLease | routing_packager_app/graph_build/__main__.py:100-109 | In time the current generation is kept throughout; on success the disk holds the new generation and all that was not to be pruned; on failure the link is the same and the error has its cause outside |
| BuildRuns.RunBuild | routing_packager_app/graph_build/__main__.py:75-122 | Its first action is the single request for the provider lease, without any sleep, and it skips if and only if that is refused, there and then; the lease is freed in all cases; a build that gives up over a held generation has waited for the timeout; what is built has the name the clock showed; a skipped run changes nothing; a failed build moved no link and queued nothing; a successful one moved the link once before it queued the update |
| BuildRuns.RunOnce | routing_packager_app/graph_build/__main__.py:125-156 | EXIT_OK, EXIT_LOCKED and EXIT_FAILED against link, files, queue and status: OK only with every program's exit code zero, the stages reported in their order, the link moved to a whole generation and then the update queued, LOCKED exactly if the one request for the lease is refused, at once and with nothing touched, FAILED with nothing queued, after a build that held its lease and in time failed for the cause it tells, or whose update could not be queued |
| BuildRuns.LinkIsAsNewAfterwards | routing_packager_app/graph_build/__main__.py:109-122 | From a successful build on, in time, the link names its generation or a newer one, and what it published is not rewritten |
| PackageUpdates.PackedFromNewGraph | routing_packager_app/graph_build/__main__.py:118-120 | In time, whatever is packed by a job that began after a build had moved the link comes from the generation of that build or a newer one |
| PackageUpdates.UpdatedFromNewGraph | routing_packager_app/graph_build/__main__.py:118-120 | In time, so does every package that the update makes which a build has queued |
| BuildRuns.ReportOfSuccess | routing_packager_app/graph_build/__main__.py:125-156 | What the status file of a successful single run says in the end: idle, the generation, no error, the start of the first stage |
| BuildRuns.Scheduler.SleepUntil | routing_packager_app/graph_build/__main__.py:51-57 | Returns only when stopped or when the time has come; no sleep above 30 s, no more sleep than needed, and terminates |
| BuildStatusFile.EveryReportIsOk | routing_packager_app/graph_build/status.py:73-140 | After any sequence of calls: building implies a stage, a start and no next build; idle implies no stage; failed implies an error |
| BuildStatusFile.StartIsKeptWithinABuild | routing_packager_app/graph_build/status.py:82-90 | The start time stays the same from stage to stage until the build goes idle or fails |
| BuildStatusFile.TotalTimeIsBounded | routing_packager_app/graph_build/status.py:56-71 | The reported stage durations sum to no more than the time that passed |
| BuildStatusFile.BuildStatus.Bind | routing_packager_app/graph_build/status.py:33-54 | Back to the initial report, without an open timer |
| BuildStatusFile.BuildStatus.Note | routing_packager_app/graph_build/status.py:73-140 | With each call the report is the replay of all calls since `bind`, and what the file holds that of the calls up to some moment |
| BuildStatusFile.BuildStatus.Write | routing_packager_app/graph_build/status.py:142-156 | The file holds the whole report of all calls so far unless the system refuses the write, and then it is as before; an unbound status raises |
| BuildStatusFile.BuildStatus.CloseStage | routing_packager_app/graph_build/status.py:56-71 | Reports the open stage once, under its own name, from its own start to now, and closes it |
| BuildStatusFile.BuildStatus.Stage | routing_packager_app/graph_build/status.py:73-90 | The first stage of a build sets its start and clears the generation and the last error, the others keep all three; a timer is open exactly while building, every entered stage but the current one has been reported once, without overlap |
| BuildStatusFile.BuildStatus.Generation | routing_packager_app/graph_build/status.py:92-99 | Records the generation and nothing else |
| BuildStatusFile.BuildStatus.Heartbeat | routing_packager_app/graph_build/status.py:101-111 | Writes no sooner than 10 s after the previous write, and leaves the last attempt to write under 10 s old |
| BuildStatusFile.BuildStatus.Idle | routing_packager_app/graph_build/status.py:113-129 | All entered stages are reported, no timer is open, the report is idle, and keeps generation, start and last error |
| BuildStatusFile.BuildStatus.Failed | routing_packager_app/graph_build/status.py:131-140 | All entered stages are reported; the stage it died on stays in the report, with the error, the generation and the start |
| Tiles.TilePathRoundTrip | tests/utils/test_valhalla.py:11-30 | For every level and every base the printer takes, parsing the printed path gives that base and size back |
| Tiles.ReadsAnyPath | routing_packager_app/utils/valhalla_utils.py:11-47 | Of any path with a slash: the box of the tile, a KeyError for a level above two, a ValueError for what is no number |
| Tiles.PathExample | tests/utils/test_valhalla.py:11-30 | The path and the box of one tile: ids count along the rows, from the south-west |
| Tiles.PrintsCorners | tests/utils/test_valhalla.py:11-30 | The printer takes exactly the corners of tiles of the grid |
| Tiles.ParsesCell | routing_packager_app/utils/valhalla_utils.py:11-22 | The path of every cell of the grid is parsed to the box of that cell |
| Tiles.PathsAreDistinct | tests/utils/test_valhalla.py:20-30 | Different tiles print different paths |
| Tiles.EachPointIsInOneTile | routing_packager_app/utils/valhalla_utils.py:15-22 | On each level every point of the globe lies in exactly one half-open box, and it belongs to the grid |
| Tiles.BoxesAreDistinct | routing_packager_app/utils/valhalla_utils.py:15-22 | Column and row are determined by the box |
| Tiles.TilesAreOnTheGlobe | routing_packager_app/utils/valhalla_utils.py:15-22 | A cell is in the grid exactly if its box is on the globe |
| Tiles.EachTileHasOneAncestor | routing_packager_app/utils/valhalla_utils.py:8-22 | Every tile lies in exactly one tile of each coarser level, and that one belongs to the grid |
| Tiles.EachTileHasOneParent | routing_packager_app/utils/valhalla_utils.py:8-22 | Every tile lies in exactly one tile of the next coarser level |
| Tiles.SelectedIffMeets | routing_packager_app/utils/valhalla_utils.py:32-38 | None of the four comparisons leaves a tile out if and only if the closed boxes have a point in common |
| Tiles.ChosenIsSelection | routing_packager_app/utils/valhalla_utils.py:25-41 | The tiles chosen by the comparisons are exactly those that meet the bbox |
| Tiles.GetTilesWithBbox | routing_packager_app/utils/valhalla_utils.py:25-41 | Returns exactly those tiles, or raises for the first path that is none of a tile |
| Tiles.SelectedIsRectangle | routing_packager_app/utils/valhalla_utils.py:25-41 | On each level the chosen tiles are exactly a rectangle of columns and rows |
| Tiles.SelectionIsSmall | routing_packager_app/utils/valhalla_utils.py:25-41 | At most (floor(w/s) + 2) * (floor(h/s) + 2) tiles of a level are chosen |
| Tiles.SelectedCellsCover | routing_packager_app/api_v1/dependencies.py:20-24 | For every bbox that `split_bbox` accepts the chosen cells of each level cover it |
| Tiles.SelectionCovers | routing_packager_app/utils/valhalla_utils.py:25-41 | The same for the paths, given all tiles of the level |
| Tiles.AncestorIsSelected | routing_packager_app/utils/valhalla_utils.py:30-39 | With a tile, the tile it lies in on every coarser level is chosen too if it is among the input, whatever else is |
| Tiles.ParentIsSelected | routing_packager_app/utils/valhalla_utils.py:30-39 | With a tile, the tile it lies in on the next coarser level is chosen too, if it is among the input |
| Bboxes.SplitOfJoin | routing_packager_app/api_v1/dependencies.py:15 | Splitting at commas undoes joining with commas |
| Bboxes.SplitBboxChecks | routing_packager_app/api_v1/dependencies.py:8-26 | What is accepted is a box on the globe; no text means no bbox; everything else is a client error with the message that applies |
| Bboxes.SplitBboxRoundTrip | routing_packager_app/api_v1/dependencies.py:8-26 | The text of a box is accepted exactly if the box is on the globe, and then read as that box |
| PackageJobs.SortJobsIsStable | routing_packager_app/worker.py:167-184 | Sorted by area, largest first, a permutation, and jobs of one area keep their order |
| PackageJobs.StableOrderIsUnique | routing_packager_app/worker.py:177-184 | There is only one such order |
| Packages.DirnameOf | routing_packager_app/worker.py:120 | The directory of a path is what comes before its last slashes, or the slashes of a name at the root |
| Packages.PackagesAreApart | routing_packager_app/worker.py:150 | Two ZIP paths name the same package exactly if their directories are the same |
| Packages.SeenThroughout | routing_packager_app/worker.py:97-107 | Between two moments of reading under a live lease the generation does not change |
| Packages.ChooseTiles | routing_packager_app/worker.py:99-105 | The tiles to pack are those of the held generation that meet the bbox; each exception has its reason: a 404 that there are none or none meets the bbox, a 400 a bad bbox |
| Packages.PackingIsDetermined | routing_packager_app/worker.py:97-107 | The tiles, the bbox and the errors of the ZIP leave one outcome of packing, and it is a ZIP exactly if the ZIP can be written, the bbox and all paths can be read, and some tile meets the bbox |
| Packages.PackedExactlyWhen | routing_packager_app/worker.py:84-130 | Once a generation is held, in time and with a live lease, a package is made exactly if its files can be written and tiles of the published generation can be chosen |
| Packages.ZipEntries | routing_packager_app/utils/file_utils.py:36-38 | Each entry of the ZIP is a chosen file with its content, under its path below `valhalla_tiles/` |
| Packages.Packager.MakeZip | routing_packager_app/worker.py:107 | While other processes act between any two files, the ZIP ends up with exactly the chosen files of one generation; in time and live it fails exactly if an access to the ZIP does |
| Packages.Packager.PackTiles | routing_packager_app/worker.py:97-107 | In time and live the one outcome that the held generation allows; exceptions that are controlled come before the ZIP is touched |
| Packages.Packager.PackUnderLease | routing_packager_app/worker.py:84-107 | What is packed, or the reason that nothing is, comes from one generation that was current at the re-check; a 500 means that no lease was to be had, for one of the reasons of `lock_generation_shared`; the lease is given back on every exit |
| Packages.Packager.CreatePackage | routing_packager_app/worker.py:31-164 | The package is in the directory of the ZIP's path and no other is touched; any exit after the job is found leaves it Completed exactly if nothing was raised, with both times set and the lease freed; a failed creation leaves no package, an update failing with a controlled exception leaves it unchanged; a successful one is a snapshot of one published generation, and each exception has its reason |
| Packages.Packager.FinishJob | routing_packager_app/worker.py:142-155 | The final status and time, and the removal of a failed creation only |
| Packages.Packager.SelectJobs | routing_packager_app/worker.py:202-206 | Exactly the provider's jobs that are to be updated, each once |
| Packages.Packager.UpdateInOrder | routing_packager_app/worker.py:209-229 | One attempt per job, in order, each beginning where the one before it ended, whatever that came to; the count is the number of successes |
| Packages.Packager.UpdateAllPackages | routing_packager_app/worker.py:187-241 | Every selected job is tried once, and a larger one is through before a smaller one starts; each attempt leaves a snapshot of one published generation, or, after a controlled exception, the package as it was, which then stays unless a later job has the same directory; total and succeeded are what happened; no other job and no other package is touched |

## Left out

- Subprocesses, signals, log forwarding, wget, pyosmium and Valhalla: each is a step with an exit code; a program that cannot be started counts as one that exits with another code than 0 and 1.
- `run_scheduled`: its outer loop ends only by a signal; one round of it is `RunBuild` followed by status calls and `SleepUntil`. The cron expression is not evaluated.
- Errors of the database inside the pruning loop and at the release of a lease: a builder can crash there, which leaves its row to expire, but not raise.
- `generations_dir` that does not exist: `run_build` makes it before it prunes, so the early return of `prune_generations` is never taken.
- A `graph.tmp` that is a directory rather than a link or a file.
- Heartbeats during a build: they change only the time of the report, so that they are not among the calls a build records or a report replays.
- The connection of `BuildStatus` and the builder is by the sequence of calls: the builder records them, and the status module says what any sequence leaves in the report.
- What an earlier process left in the status file: `file` is what this one has written since `bind`.
- GraphBuilding.RunStage: a builder that finds its directory removed under it, which takes an expired lease, fails; what Valhalla does then is not known.
- Packages.Packager.MakeZip: a failure in the middle leaves a partial ZIP, also of an update; the code promises nothing else.
- Packages.Packager.CreatePackage: job and user rows do not come and go while a package is made; a deleted package directory shows as a failure to open the ZIP.
- Tiles.ParsesPrinted: `int()` also reads signs, surrounding blanks, underscores and other digits than 0 to 9; file names that Valhalla does not write are not modelled.
- Coordinates are real numbers and tile edges exact; NaN, infinities and rounding are not modelled. `float()` is a parameter.
- HTTP routes, users, API keys, health endpoints, metrics, mail, logging, Redis and ARQ: queueing an update job either happens or raises.
- Geometry conversion: the area and the bbox text of a job are given values.
- Fairness between readers and the pruner: a pruner can be kept waiting until its timeout.
