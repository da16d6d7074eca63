/** `download_pbf`, `update_pbf`, `build_graph`, `write_build_meta` and `swap_graph_link`. */
module GraphBuilding {
  import opened Common
  import opened GraphLocks
  import opened LeaseProtocol
  import opened GenerationSafety
  import opened Interference
  import opened GenerationNames
  import opened BuildStatusFile
  import opened GraphDeployment
  import opened GraphBuilder

  /**
   * What a build finds outside: whether there is a PBF, PBF_MAX_UPDATE_PASSES, and the exit codes
   * of wget, of each pass of pyosmium-up-to-date and of each program `build_graph` runs, and
   * whether the system lets it write the metadata and replace the link. A program that cannot be
   * started counts as one that exits with another code than 0 and 1.
   */
  datatype Programs = Programs(pbfExists: bool, download: int, passes: int, updates: seq<int>, stages: map<Stage, int>,
                               writesMeta: bool, replacesLink: bool)

  ghost predicate Succeeds(w: Programs, stage: Stage) {
    stage in w.stages && w.stages[stage] == 0
  }

  /** The exit codes of the passes that were run are 1, ..., 1, 0. */
  ghost predicate CaughtUp(codes: seq<int>, passes: int) {
    exists n | 0 <= n < passes && n < |codes| :: codes[n] == 0 && forall i | 0 <= i < n :: codes[i] == 1
  }

  /** There is a PBF to build from in the end. */
  ghost predicate PbfReady(w: Programs) {
    if w.pbfExists then w.passes == 0 || CaughtUp(w.updates, w.passes) else w.download == 0
  }

  /**
   * `update_pbf`, with the exit code each pass would give. Zero passes mean no update; otherwise
   * it returns exactly when the file is current within the limit, and runs no pass more than needed.
   */
  method UpdatePbf(passes: int, codes: seq<int>) returns (ok: bool, runs: nat)
    requires passes <= |codes|
    ensures ok <==> passes == 0 || CaughtUp(codes, passes)
    ensures runs <= Max(passes, 0) && forall i | 0 <= i < runs - 1 :: codes[i] == 1
    ensures ok && passes != 0 ==> runs > 0 && codes[runs - 1] == 0
    ensures !ok ==> runs == Max(passes, 0) || (runs > 0 && codes[runs - 1] !in {0, 1})
  {
    runs := 0;
    if passes == 0 {
      return true, 0;
    }
    var attempt := 1;
    while attempt <= passes
      invariant 1 <= attempt && runs == attempt - 1 && runs <= Max(passes, 0)
      invariant forall i | 0 <= i < runs :: codes[i] == 1
      decreases passes - attempt
    {
      var returncode := codes[attempt - 1];
      runs := runs + 1;
      if returncode == 0 {
        return true, runs;
      }
      if returncode != 1 {
        return false, runs;
      }
      attempt := attempt + 1;
    }
    return false, runs;
  }

  /** An exception outside of the pruning loop: `run_build` has nothing left to do but to release its lease. */
  method GiveUp(d: Deployment, b: nat, me: Builder, ghost r0: Run, ghost e: Files, ghost rows: set<nat>)
    requires me.phase.Fetch? || me.phase.Make? || me.phase.Build? || me.phase.Unstage? || me.phase.Link?
          || me.phase.Swap?
    requires At(d, b, me, r0, e, rows)
    modifies d`now, d`stamp, d`monotonic, d`links, d`staged, d`dirs, d`published, d`builders, d`workers, d`run, d.locks
    ensures At(d, b, me.(phase := Leave), r0, e, rows)
  {
    hide IsRun, StepOk, Apply, OwnRows, RunsInTime, SameFor, Kept, Tracks, Extends;
    Interfere(d, b, me, r0, e, rows);
    ghost var s := d.Abs();
    BuilderStepIsAnAction(s, BFail(b));
    CommitInPlace(d, BFail(b), b, s, me, Some(me.(phase := Leave)), None, r0, e, e, rows);
  }

  /** What is told to the status file while the PBF is fetched. */
  function FetchCalls(w: Programs): seq<Call> {
    [StageCall(if w.pbfExists then UpdatingPbf else DownloadingPbf)]
  }

  /** `download_pbf` or `update_pbf`. */
  method FetchPbf(d: Deployment, b: nat, me: Builder, w: Programs, ghost r0: Run, ghost e: Files, ghost rows: set<nat>)
    returns (ok: bool)
    requires me.phase == Fetch && w.passes <= |w.updates| && At(d, b, me, r0, e, rows)
    modifies d`now, d`stamp, d`monotonic, d`links, d`staged, d`dirs, d`published, d`builders, d`workers, d`run,
             d`statusCalls, d.locks
    ensures d.statusCalls == old(d.statusCalls) + FetchCalls(w)
    ensures ok <==> PbfReady(w)
    ensures At(d, b, if ok then me else me.(phase := Leave), r0, e, rows)
  {
    hide At, CaughtUp;
    if w.pbfExists {
      d.statusCalls := d.statusCalls + [StageCall(UpdatingPbf)];
      var runs;
      ok, runs := UpdatePbf(w.passes, w.updates);
    } else {
      d.statusCalls := d.statusCalls + [StageCall(DownloadingPbf)];
      ok := w.download == 0;
    }
    if !ok {
      GiveUp(d, b, me, r0, e, rows);
    }
  }

  // ----- build_graph -----

  /** The generation that a build has named, if it came so far to tell. */
  function NameUsed(built: Result<Gen, BuildFailure>): Option<Gen> {
    match built
    case Ok(g) => Some(g)
    case Raised(NameTaken(g)) => Some(g)
    case Raised(_) => None
  }

  /** Since `r0` the builder has read the clock, which showed the second that names `g`. */
  ghost predicate ClockNamed(r0: Run, r: Run, b: nat, g: Gen) {
    exists k :: |r0.acts| <= k < |r.acts| && k < |r.states| && r.acts[k] == BFetched(b) && r.states[k].stamp == g.stamp
  }

  /** The clock has named the generation the build tells of. */
  ghost predicate NamedByClock(r0: Run, r: Run, b: nat, p: Provider, built: Result<Gen, BuildFailure>) {
    NameUsed(built).Some? ==> NameUsed(built).value.provider == p && ClockNamed(r0, r, b, NameUsed(built).value)
  }

  lemma ClockStaysNamed(r0: Run, r1: Run, r2: Run, r: Run, b: nat, g: Gen)
    requires |r0.acts| <= |r1.acts| && ClockNamed(r1, r2, b, g) && Extends(r2, r)
    ensures ClockNamed(r0, r, b, g)
  {
    var k :| |r1.acts| <= k < |r2.acts| && k < |r2.states| && r2.acts[k] == BFetched(b)
             && r2.states[k].stamp == g.stamp;
    assert r.acts[k] == r2.acts[k] && r.states[k] == r2.states[k];
  }

  /** The same, as named since an earlier moment. */
  lemma NamedSince(r0: Run, r1: Run, r: Run, b: nat, p: Provider, built: Result<Gen, BuildFailure>)
    requires |r0.acts| <= |r1.acts| && NamedByClock(r1, r, b, p, built)
    ensures NamedByClock(r0, r, b, p, built)
  {
  }

  lemma StaysNamed(r0: Run, r1: Run, r2: Run, r: Run, b: nat, p: Provider, built: Result<Gen, BuildFailure>)
    requires |r0.acts| <= |r1.acts| && NamedByClock(r1, r2, b, p, built) && Extends(r2, r)
    ensures NamedByClock(r0, r, b, p, built)
  {
    if NameUsed(built).Some? { ClockStaysNamed(r0, r1, r2, r, b, NameUsed(built).value); }
  }

  /** The clock names the directory. */
  method NameGeneration(d: Deployment, b: nat, me: Builder, ghost r0: Run, ghost e: Files, ghost rows: set<nat>)
    returns (name: nat)
    requires me.phase == Fetch && At(d, b, me, r0, e, rows)
    modifies d`now, d`stamp, d`monotonic, d`links, d`staged, d`dirs, d`published, d`builders, d`workers, d`run, d.locks
    ensures At(d, b, me.(phase := Make(name)), r0, e, rows) && Extends(old(d.run), d.run)
    ensures ClockNamed(r0, d.run, b, Gen(me.provider, name))
  {
    hide IsRun, StepOk, Apply, OwnRows, RunsInTime, SameFor, Kept, Tracks, Extends;
    ghost var r1 := d.run;
    Interfere(d, b, me, r0, e, rows);
    ghost var r2, s := d.run, d.Abs();
    name := d.stamp;
    BuilderStepIsAnAction(s, BFetched(b));
    CommitInPlace(d, BFetched(b), b, s, me, Some(me.(phase := Make(name))), None, r0, e, e, rows);
    ExtendsTransitive(r1, r2, d.run);
    KeptIsLonger(r0, r2, BuilderProc(b));
    StatesAreKept(r2, d.run, |r2.acts|);
  }

  /** `generation.mkdir(parents=True)`, which raises if the directory exists. */
  method MakeDirectory(d: Deployment, b: nat, me: Builder, name: nat, ghost r0: Run, ghost e: Files,
                       ghost rows: set<nat>)
    returns (ok: bool)
    requires me.phase == Make(name) && At(d, b, me, r0, e, rows)
    modifies d`now, d`stamp, d`monotonic, d`links, d`staged, d`dirs, d`published, d`builders, d`workers, d`run, d.locks
    ensures ok ==> At(d, b, me.(phase := Build(Gen(me.provider, name), AllStages(d.cfg))), r0,
                      Edited(e, Gen(me.provider, name), EMPTY_DIR), rows)
    ensures !ok ==> At(d, b, me.(phase := Leave), r0, e, rows)
    ensures RunsInTime(d.run, me.provider) ==> (ok <==> Gen(me.provider, name) !in e.dirs)
  {
    hide IsRun, StepOk, Apply, OwnRows, RunsInTime, Kept, Extends, AllStages;
    Interfere(d, b, me, r0, e, rows);
    ghost var r1, s := d.run, d.Abs();
    var g := Gen(me.provider, name);
    BuilderStepIsAnAction(s, BMkdir(b));
    ok := g !in d.dirs;
    if ok {
      d.dirs := d.dirs[g := EMPTY_DIR];
    }
    if SameFor(e, s.files, me.provider) { EditedAlike(e, s.files, me.provider, g, EMPTY_DIR); }
    var next := me.(phase := if ok then Build(g, AllStages(d.cfg)) else Leave);
    CommitInPlace(d, BMkdir(b), b, s, me, Some(next), None, r0, e, if ok then Edited(e, g, EMPTY_DIR) else e, rows);
    if RunsInTime(d.run, me.provider) { InTimeBefore(r1, d.run, me.provider); }
  }

  /** And looked at from the earlier moment again, the clock has named the generation. */
  lemma NamedSinceEarlier(d: Deployment, b: nat, me: Builder, r0: Run, r1: Run, e: Files, rows: set<nat>, g: Gen)
    requires At(d, b, me, r1, e, rows) && Kept(r0, r1, BuilderProc(b)) && ClockNamed(r0, r1, b, g)
    ensures At(d, b, me, r0, e, rows) && ClockNamed(r0, d.run, b, g)
    ensures RunsInTime(d.run, me.provider) ==> RunsInTime(r1, me.provider)
  {
    hide RunsInTime, OwnRows, ClockNamed;
    ClockStaysNamed(r0, r0, r1, d.run, b, g);
    AtSinceEarlier(d, b, me, r0, r1, e, rows);
  }

  /** The directory of a new generation, under the name the clock gives it. */
  method MakeGeneration(d: Deployment, b: nat, me: Builder, ghost r0: Run, ghost e: Files, ghost rows: set<nat>)
    returns (ok: bool, g: Gen)
    requires me.phase == Fetch && At(d, b, me, r0, e, rows)
    modifies d`now, d`stamp, d`monotonic, d`links, d`staged, d`dirs, d`published, d`builders, d`workers, d`run, d.locks
    ensures g.provider == me.provider && ClockNamed(r0, d.run, b, g)
    ensures ok ==> At(d, b, me.(phase := Build(g, AllStages(d.cfg))), r0, Edited(e, g, EMPTY_DIR), rows)
    ensures !ok ==> At(d, b, me.(phase := Leave), r0, e, rows)
    ensures RunsInTime(d.run, me.provider) ==> (ok <==> g !in e.dirs)
  {
    hide At, Kept, RunsInTime, Extends, ClockNamed, AllStages, Edited;
    var name := NameGeneration(d, b, me, r0, e, rows);
    g := Gen(me.provider, name);
    ghost var r1 := d.run;
    AtFromHere(d, b, me.(phase := Make(name)), r0, e, rows);
    ok := MakeDirectory(d, b, me.(phase := Make(name)), name, r1, e, rows);
    NamedSinceEarlier(d, b, me.(phase := if ok then Build(g, AllStages(d.cfg)) else Leave), r0, r1,
                      if ok then Edited(e, g, EMPTY_DIR) else e, rows, g);
  }

  lemma EditedAgain(e: Files, f: Files, p: Provider, g: Gen, dir: Dir, dir': Dir)
    requires SameFor(Edited(e, g, dir), f, p) && g.provider == p
    ensures g in f.dirs && f.dirs[g] == dir && SameFor(Edited(e, g, dir'), Edited(f, g, dir'), p)
  {
    EditedAlike(Edited(e, g, dir), f, p, g, dir');
    assert Edited(Edited(e, g, dir), g, dir') == Edited(e, g, dir');
  }

  /** The running program writes tiles. */
  method WriteTiles(d: Deployment, b: nat, me: Builder, g: Gen, left: seq<Stage>, tiles: map<string, nat>,
                    ghost dir: Dir, ghost r0: Run, ghost e: Files, ghost rows: set<nat>)
    requires me.phase == Build(g, left) && left != [] && g.provider == me.provider && g in d.dirs
    requires At(d, b, me, r0, Edited(e, g, dir), rows)
    modifies d`dirs, d`builders, d`run, d.locks
    ensures At(d, b, me, r0, Edited(e, g, dir.(tiles := tiles)), rows)
  {
    hide IsRun, StepOk, Apply, OwnRows, RunsInTime, SameFor, Kept, Tracks, Extends;
    ghost var s := d.Abs();
    BuilderStepIsAnAction(s, BWrite(b, tiles));
    d.dirs := d.dirs[g := d.dirs[g].(tiles := tiles)];
    if SameFor(Edited(e, g, dir), s.files, me.provider) {
      EditedAgain(e, s.files, me.provider, g, dir, dir.(tiles := tiles));
    }
    CommitInPlace(d, BWrite(b, tiles), b, s, me, Some(me), None, r0, Edited(e, g, dir),
                  Edited(e, g, dir.(tiles := tiles)), rows);
  }

  /** The program came to its end. */
  method EndStage(d: Deployment, b: nat, me: Builder, g: Gen, left: seq<Stage>,
                  ghost dir: Dir, ghost r0: Run, ghost e: Files, ghost rows: set<nat>)
    requires me.phase == Build(g, left) && left != [] && g.provider == me.provider && g in d.dirs
    requires At(d, b, me, r0, Edited(e, g, dir), rows)
    modifies d`dirs, d`builders, d`run, d.locks
    ensures At(d, b, me.(phase := Build(g, left[1..])), r0, Edited(e, g, dir.(done := dir.done + [left[0]])), rows)
  {
    hide IsRun, StepOk, Apply, OwnRows, RunsInTime, SameFor, Kept, Tracks, Extends;
    ghost var s := d.Abs();
    BuilderStepIsAnAction(s, BStaged(b));
    d.dirs := d.dirs[g := d.dirs[g].(done := d.dirs[g].done + [left[0]])];
    ghost var dir' := dir.(done := dir.done + [left[0]]);
    if SameFor(Edited(e, g, dir), s.files, me.provider) { EditedAgain(e, s.files, me.provider, g, dir, dir'); }
    CommitInPlace(d, BStaged(b), b, s, me, Some(me.(phase := Build(g, left[1..]))), None, r0, Edited(e, g, dir),
                  Edited(e, g, dir'), rows);
  }

  /** In time the directory that is being built is there. */
  lemma BuiltIsThere(d: Deployment, b: nat, me: Builder, g: Gen, dir: Dir, r0: Run, e: Files, rows: set<nat>)
    requires At(d, b, me, r0, Edited(e, g, dir), rows) && g.provider == me.provider && g !in d.dirs
    ensures !RunsInTime(d.run, me.provider)
  {
    if RunsInTime(d.run, me.provider) { EditedAgain(e, d.Volume(), me.provider, g, dir, dir); }
  }

  lemma NotInTimeLater(r: Run, r': Run, p: Provider)
    requires Extends(r, r') && !RunsInTime(r, p)
    ensures !RunsInTime(r', p)
  {
    if RunsInTime(r', p) { InTimeBefore(r, r', p); }
  }

  /** One `_run` of `build_graph`: the program writes what it likes and exits. */
  method RunStage(d: Deployment, b: nat, me: Builder, g: Gen, stage: Stage, rest: seq<Stage>, w: Programs,
                  ghost dir: Dir, ghost r0: Run, ghost e: Files, ghost rows: set<nat>)
    returns (ok: bool, ghost dir': Dir)
    requires me.phase == Build(g, [stage] + rest) && g.provider == me.provider
    requires At(d, b, me, r0, Edited(e, g, dir), rows)
    modifies d`now, d`stamp, d`monotonic, d`links, d`staged, d`dirs, d`published, d`builders, d`workers, d`run, d.locks
    ensures ok ==> Succeeds(w, stage)
    ensures RunsInTime(d.run, me.provider) ==> (ok <==> Succeeds(w, stage))
    ensures RunsInTime(d.run, me.provider) ==> (ok <==> stage in w.stages && w.stages[stage] == 0)
    ensures dir' == dir.(done := dir.done + (if ok then [stage] else []), tiles := dir'.tiles)
    ensures At(d, b, me.(phase := if ok then Build(g, rest) else Leave), r0, Edited(e, g, dir'), rows)
  {
    var left := [stage] + rest;
    assert left[0] == stage && left[1..] == rest;
    hide IsRun, StepOk, Apply, OwnRows, RunsInTime, SameFor, Kept, Tracks, Extends, At;
    var n: nat := *;
    dir' := dir;
    while n > 0
      invariant dir' == dir.(tiles := dir'.tiles) && At(d, b, me, r0, Edited(e, g, dir'), rows)
    {
      Interfere(d, b, me, r0, Edited(e, g, dir'), rows);
      var tiles: map<string, nat> := *;
      if g in d.dirs {
        WriteTiles(d, b, me, g, left, tiles, dir', r0, e, rows);
        dir' := dir'.(tiles := tiles);
      }
      n := n - 1;
    }
    Interfere(d, b, me, r0, Edited(e, g, dir'), rows);
    if g !in d.dirs {
      // The directory was removed under the builder, which has outlived its lease.
      BuiltIsThere(d, b, me, g, dir', r0, e, rows);
      ghost var r1 := d.run;
      AtFromHere(d, b, me, r0, Edited(e, g, dir'), rows);
      GiveUp(d, b, me, r1, Edited(e, g, dir'), rows);
      AtSinceEarlier(d, b, me.(phase := Leave), r0, r1, Edited(e, g, dir'), rows);
      return false, dir';
    }
    if left[0] !in w.stages || w.stages[left[0]] != 0 {
      GiveUp(d, b, me, r0, Edited(e, g, dir'), rows);
      return false, dir';
    }
    EndStage(d, b, me, g, left, dir', r0, e, rows);
    return true, dir'.(done := dir'.done + [left[0]]);
  }

  /** What is told to the status file while the tiles of a generation are built. */
  function BuildCalls(cfg: Settings, g: Gen): seq<Call> {
    [StageCall(BuildingTiles), GenerationCall(NameOf(g.stamp))]
    + (if cfg.elevation then [StageCall(BuildingElevation)] else []) + [StageCall(EnhancingTiles)]
  }

  /** Nothing existing is changed: no link, and no directory but a new one. */
  ghost predicate OnlyAdds(e: Files, e': Files) {
    && e'.links == e.links && e'.staged == e.staged && e'.published == e.published
    && forall g | g in e.dirs :: g in e'.dirs && e'.dirs[g] == e.dirs[g]
  }

  lemma NewDirectoryOnlyAdds(e: Files, g: Gen, dir: Dir)
    ensures OnlyAdds(e, e)
    ensures g !in e.dirs ==> OnlyAdds(e, Edited(e, g, dir))
  {
  }

  /** Why a build in time gives up. */
  ghost predicate Excused(cfg: Settings, w: Programs, e: Files, p: Provider, error: BuildFailure) {
    match error
    case GenerationHeld(g) => g in Stale(e, p)
    case PbfFailed => !PbfReady(w)
    case NameTaken(g) => g in e.dirs && g.provider == p
    case StageFailed(stage) => stage in AllStages(cfg) && !Succeeds(w, stage)
    case MetaFailed => !w.writesMeta
    case SwapFailed => !w.replacesLink
    case EnqueueFailed => false
  }

  lemma ExcusedOutside(cfg: Settings, w: Programs, e: Files, p: Provider)
    ensures !PbfReady(w) ==> Excused(cfg, w, e, p, PbfFailed)
    ensures !w.writesMeta ==> Excused(cfg, w, e, p, MetaFailed)
    ensures !w.replacesLink ==> Excused(cfg, w, e, p, SwapFailed)
  {
  }

  /** The programs of `build_graph`, one after the other, into the new directory. */
  method RunStages(d: Deployment, b: nat, me: Builder, g: Gen, w: Programs, ghost r0: Run, ghost e: Files,
                   ghost rows: set<nat>)
    returns (failed: Option<Stage>, ghost dir: Dir)
    requires me.phase == Build(g, AllStages(d.cfg)) && g.provider == me.provider
    requires At(d, b, me, r0, Edited(e, g, EMPTY_DIR), rows)
    modifies d`now, d`stamp, d`monotonic, d`links, d`staged, d`dirs, d`published, d`builders, d`workers, d`run,
             d`statusCalls, d.locks
    ensures failed.None? ==> && (forall stage | stage in AllStages(d.cfg) :: Succeeds(w, stage))
                             && dir == EMPTY_DIR.(done := AllStages(d.cfg), tiles := dir.tiles)
                             && d.statusCalls == old(d.statusCalls) + BuildCalls(d.cfg, g)[1..]
    ensures failed.Some? ==> failed.value in AllStages(d.cfg) && old(d.statusCalls) <= d.statusCalls
    ensures failed.Some? && RunsInTime(d.run, me.provider) ==> !Succeeds(w, failed.value)
    ensures At(d, b, me.(phase := if failed.None? then Build(g, []) else Leave), r0, Edited(e, g, dir), rows)
  {
    hide At, RunsInTime, NameOf, Succeeds, Edited;
    d.statusCalls := d.statusCalls + [GenerationCall(NameOf(g.stamp))];
    var ok;
    var last := (if d.cfg.elevation then [ElevationStage] else []) + [EnhanceStage];
    assert AllStages(d.cfg) == [ConfigStage] + ([TileStage] + last);
    ok, dir := RunStage(d, b, me, g, ConfigStage, [TileStage] + last, w, EMPTY_DIR, r0, e, rows);
    if !ok {
      return Some(ConfigStage), dir;
    }
    ok, dir := RunStage(d, b, me.(phase := Build(g, [TileStage] + last)), g, TileStage, last, w, dir, r0, e, rows);
    if !ok {
      return Some(TileStage), dir;
    }
    failed, dir := RunLastStages(d, b, me.(phase := Build(g, last)), g, w, dir, r0, e, rows);
  }

  /** The elevation, if it is wanted, and the second part of the tile build. */
  method RunLastStages(d: Deployment, b: nat, me: Builder, g: Gen, w: Programs,
                       ghost dir: Dir, ghost r0: Run, ghost e: Files, ghost rows: set<nat>)
    returns (failed: Option<Stage>, ghost dir': Dir)
    requires me.phase == Build(g, (if d.cfg.elevation then [ElevationStage] else []) + [EnhanceStage])
    requires g.provider == me.provider
    requires At(d, b, me, r0, Edited(e, g, dir), rows)
    modifies d`now, d`stamp, d`monotonic, d`links, d`staged, d`dirs, d`published, d`builders, d`workers, d`run,
             d`statusCalls, d.locks
    ensures failed.None? ==>
              && Succeeds(w, EnhanceStage) && (d.cfg.elevation ==> Succeeds(w, ElevationStage))
              && dir'.done == dir.done + (if d.cfg.elevation then [ElevationStage] else []) + [EnhanceStage]
              && dir' == dir.(done := dir'.done, tiles := dir'.tiles)
              && d.statusCalls == old(d.statusCalls)
                                  + (if d.cfg.elevation then [StageCall(BuildingElevation)] else [])
                                  + [StageCall(EnhancingTiles)]
    ensures failed.Some? ==> && (failed.value == EnhanceStage || (d.cfg.elevation && failed.value == ElevationStage))
                             && old(d.statusCalls) <= d.statusCalls
    ensures failed.Some? && RunsInTime(d.run, me.provider) ==> !Succeeds(w, failed.value)
    ensures At(d, b, me.(phase := if failed.None? then Build(g, []) else Leave), r0, Edited(e, g, dir'), rows)
  {
    hide At, RunsInTime, Succeeds, Edited;
    var ok := true;
    dir' := dir;
    var last: seq<Stage> := [EnhanceStage];
    if d.cfg.elevation {
      d.statusCalls := d.statusCalls + [StageCall(BuildingElevation)];
      ok, dir' := RunStage(d, b, me, g, ElevationStage, last, w, dir, r0, e, rows);
      if !ok {
        return Some(ElevationStage), dir';
      }
    } else {
      assert [] + last == last;
    }
    d.statusCalls := d.statusCalls + [StageCall(EnhancingTiles)];
    assert last == last + [];
    ok, dir' := RunStage(d, b, me.(phase := Build(g, last)), g, EnhanceStage, [], w, dir', r0, e, rows);
    failed := if ok then None else Some(EnhanceStage);
  }

  /**
   * `build_graph`: every stage runs to its end in a fresh directory, or the build fails. `e'` is
   * what it leaves of the volume `e`.
   */
  method BuildGraph(d: Deployment, b: nat, me: Builder, w: Programs, ghost r0: Run, ghost e: Files,
                    ghost rows: set<nat>)
    returns (r: Result<Gen, BuildFailure>, ghost dir: Dir, ghost e': Files)
    requires me.phase == Fetch && At(d, b, me, r0, e, rows)
    modifies d`now, d`stamp, d`monotonic, d`links, d`staged, d`dirs, d`published, d`builders, d`workers, d`run,
             d`statusCalls, d.locks
    ensures r.Ok? ==> && r.value.provider == me.provider && dir.done == AllStages(d.cfg) && !dir.meta && !dir.torn
                      && e' == Edited(e, r.value, dir) && At(d, b, me.(phase := Build(r.value, [])), r0, e', rows)
    ensures r.Ok? ==> forall stage | stage in AllStages(d.cfg) :: Succeeds(w, stage)
    ensures r.Ok? ==> forall stage | stage in dir.done :: stage in w.stages && w.stages[stage] == 0
    ensures r.Ok? ==> dir.done == (if d.cfg.elevation then [ConfigStage, TileStage, ElevationStage, EnhanceStage]
                                   else [ConfigStage, TileStage, EnhanceStage])
    ensures r.Ok? ==> d.statusCalls == old(d.statusCalls) + BuildCalls(d.cfg, r.value)
    ensures r.Raised? ==> At(d, b, me.(phase := Leave), r0, e', rows) && old(d.statusCalls) <= d.statusCalls
    ensures r.Raised? ==> r.error.NameTaken? || r.error.StageFailed?
    ensures NamedByClock(r0, d.run, b, me.provider, r)
    ensures RunsInTime(d.run, me.provider) ==> OnlyAdds(e, e') && (r.Ok? ==> r.value !in e.dirs)
    ensures RunsInTime(d.run, me.provider) && r.Raised? ==> Excused(d.cfg, w, e, me.provider, r.error)
  {
    hide At, Kept, RunsInTime, OnlyAdds, Extends, NameOf, ClockNamed;
    ghost var was := d.statusCalls;
    d.statusCalls := d.statusCalls + [StageCall(BuildingTiles)];
    var ok, g := MakeGeneration(d, b, me, r0, e, rows);
    e', dir := e, EMPTY_DIR;
    NewDirectoryOnlyAdds(e, g, dir);
    if !ok {
      return Raised(NameTaken(g)), dir, e';
    }
    ghost var r1 := d.run;
    AtFromHere(d, b, me.(phase := Build(g, AllStages(d.cfg))), r0, Edited(e, g, dir), rows);
    var failed;
    failed, dir := RunStages(d, b, me.(phase := Build(g, AllStages(d.cfg))), g, w, r1, e, rows);
    e' := Edited(e, g, dir);
    NewDirectoryOnlyAdds(e, g, dir);
    NamedSinceEarlier(d, b, me.(phase := if failed.None? then Build(g, []) else Leave), r0, r1, e', rows, g);
    r := if failed.Some? then Raised(StageFailed(failed.value)) else Ok(g);
  }

  // ----- write_build_meta -----

  /** `write_build_meta`: the last file of a generation. */
  method WriteBuildMeta(d: Deployment, b: nat, me: Builder, g: Gen, w: Programs,
                        ghost dir: Dir, ghost r0: Run, ghost e: Files, ghost rows: set<nat>)
    returns (ok: bool)
    requires me.phase == Build(g, []) && g.provider == me.provider && At(d, b, me, r0, Edited(e, g, dir), rows)
    modifies d`now, d`stamp, d`monotonic, d`links, d`staged, d`dirs, d`published, d`builders, d`workers, d`run, d.locks
    ensures ok ==> w.writesMeta && At(d, b, me.(phase := Unstage(g)), r0, Edited(e, g, dir.(meta := true)), rows)
    ensures !ok ==> At(d, b, me.(phase := Leave), r0, Edited(e, g, dir), rows)
    ensures RunsInTime(d.run, me.provider) ==> ok == w.writesMeta
  {
    hide IsRun, StepOk, Apply, OwnRows, RunsInTime, SameFor, Kept, Tracks, Extends;
    Interfere(d, b, me, r0, Edited(e, g, dir), rows);
    if g !in d.dirs {
      BuiltIsThere(d, b, me, g, dir, r0, e, rows);
      ghost var r1 := d.run;
      AtFromHere(d, b, me, r0, Edited(e, g, dir), rows);
      GiveUp(d, b, me, r1, Edited(e, g, dir), rows);
      AtSinceEarlier(d, b, me.(phase := Leave), r0, r1, Edited(e, g, dir), rows);
      return false;
    }
    if !w.writesMeta {
      GiveUp(d, b, me, r0, Edited(e, g, dir), rows);
      return false;
    }
    FinishMeta(d, b, me, g, dir, r0, e, rows);
    return true;
  }

  method FinishMeta(d: Deployment, b: nat, me: Builder, g: Gen, ghost dir: Dir, ghost r0: Run, ghost e: Files,
                    ghost rows: set<nat>)
    requires me.phase == Build(g, []) && g.provider == me.provider && g in d.dirs
    requires At(d, b, me, r0, Edited(e, g, dir), rows)
    modifies d`dirs, d`builders, d`run, d.locks
    ensures At(d, b, me.(phase := Unstage(g)), r0, Edited(e, g, dir.(meta := true)), rows)
  {
    hide IsRun, StepOk, Apply, OwnRows, RunsInTime, SameFor, Kept, Tracks, Extends;
    ghost var s := d.Abs();
    BuilderStepIsAnAction(s, BMeta(b));
    d.dirs := d.dirs[g := d.dirs[g].(meta := true)];
    if SameFor(Edited(e, g, dir), s.files, me.provider) {
      EditedAgain(e, s.files, me.provider, g, dir, dir.(meta := true));
    }
    CommitInPlace(d, BMeta(b), b, s, me, Some(me.(phase := Unstage(g))), None, r0,
                  Edited(e, g, dir), Edited(e, g, dir.(meta := true)), rows);
  }

  // ----- swap_graph_link -----

  /**
   * From `r0` to `r` the builder moved a link exactly once, at `swap`. In time that made the
   * provider's link name the generation, which held `dir` and was published so.
   */
  ghost predicate LinkSwapped(r0: Run, r: Run, b: nat, p: Provider, g: Gen, dir: Dir, swap: nat) {
    && |r.states| == |r.acts| + 1 && Extends(r0, r)
    && |r0.acts| <= swap < |r.acts| && r.acts[swap] == BSwap(b)
    && (forall k | |r0.acts| <= k < |r.acts| && By(r.acts[k]) == Some(BuilderProc(b)) && k != swap ::
          r.states[k + 1].files.links == r.states[k].files.links)
    && (RunsInTime(r, p) ==>
          var f := r.states[swap + 1].files;
          Resolved(f, p) == Some(g) && f.dirs[g] == dir && AsPublished(f, g))
  }

  lemma LinkSwappedNow(r0: Run, r1: Run, r: Run, b: nat, p: Provider, g: Gen, dir: Dir, expected: Files)
    requires Kept(r0, r1, BuilderProc(b)) && Extends(r1, r)
    requires |r.states| == |r.acts| + 1 && |r.acts| == |r1.acts| + 1 && r.acts[|r1.acts|] == BSwap(b)
    requires Tracks(r, expected, r.states[|r.acts|].files, p)
    requires Resolved(expected, p) == Some(g) && g.provider == p && expected.dirs[g] == dir && AsPublished(expected, g)
    ensures LinkSwapped(r0, r, b, p, g, dir, |r1.acts|)
  {
    forall k | |r0.acts| <= k < |r.acts| && By(r.acts[k]) == Some(BuilderProc(b)) && k != |r1.acts|
      ensures r.states[k + 1].files.links == r.states[k].files.links
    {
      assert r1.acts[k] == r.acts[k] && r1.states[k] == r.states[k] && r1.states[k + 1] == r.states[k + 1];
    }
  }

  /** It stays so while the builder moves no link. */
  lemma LinkStaysSwapped(r0: Run, r1: Run, r: Run, b: nat, p: Provider, g: Gen, dir: Dir, swap: nat)
    requires LinkSwapped(r0, r1, b, p, g, dir, swap) && Kept(r1, r, BuilderProc(b))
    ensures LinkSwapped(r0, r, b, p, g, dir, swap)
  {
    if RunsInTime(r, p) { InTimeBefore(r1, r, p); }
    forall k | |r0.acts| <= k < |r.acts| && By(r.acts[k]) == Some(BuilderProc(b)) && k != swap
      ensures r.states[k + 1].files.links == r.states[k].files.links
    {
      if k < |r1.acts| {
        assert r1.acts[k] == r.acts[k] && r1.states[k] == r.states[k] && r1.states[k + 1] == r.states[k + 1];
      }
    }
  }

  /** A stale `graph.tmp` is removed. */
  method UnlinkStaged(d: Deployment, b: nat, me: Builder, g: Gen, ghost r0: Run, ghost e: Files, ghost rows: set<nat>)
    requires me.phase == Unstage(g) && At(d, b, me, r0, e, rows)
    modifies d`now, d`stamp, d`monotonic, d`links, d`staged, d`dirs, d`published, d`builders, d`workers, d`run, d.locks
    ensures At(d, b, me.(phase := Link(g)), r0, Unstaged(e, me.provider), rows)
  {
    hide IsRun, StepOk, Apply, OwnRows, RunsInTime, SameFor, Kept, Tracks, Extends;
    var p := me.provider;
    Interfere(d, b, me, r0, e, rows);
    ghost var s := d.Abs();
    BuilderStepIsAnAction(s, BUnstage(b));
    if p in d.staged {
      d.staged := d.staged - {p};
    }
    assert d.staged == s.files.staged - {p};
    if SameFor(e, s.files, p) { UnstagedAlike(e, s.files, p); }
    CommitInPlace(d, BUnstage(b), b, s, me, Some(me.(phase := Link(g))), None, r0, e, Unstaged(e, p), rows);
  }

  /** `symlink_to`, which raises if there is a `graph.tmp`; in time there is none. */
  method LinkStaged(d: Deployment, b: nat, me: Builder, g: Gen, ghost r0: Run, ghost e: Files, ghost rows: set<nat>)
    returns (ok: bool)
    requires me.phase == Link(g) && At(d, b, me, r0, e, rows) && me.provider !in e.staged
    modifies d`now, d`stamp, d`monotonic, d`links, d`staged, d`dirs, d`published, d`builders, d`workers, d`run, d.locks
    ensures At(d, b, me.(phase := if ok then Swap(g) else Leave), r0, if ok then Staged(e, me.provider, g) else e, rows)
    ensures !ok ==> !RunsInTime(d.run, me.provider)
  {
    hide IsRun, StepOk, Apply, OwnRows, RunsInTime, Kept, Extends;
    var p := me.provider;
    Interfere(d, b, me, r0, e, rows);
    ghost var r1, s := d.run, d.Abs();
    BuilderStepIsAnAction(s, BLink(b));
    ok := p !in d.staged;
    if ok {
      d.staged := d.staged[p := g];
    }
    if SameFor(e, s.files, p) { StagedAlike(e, s.files, p, g); }
    var next := me.(phase := if ok then Swap(g) else Leave);
    CommitInPlace(d, BLink(b), b, s, me, Some(next), None, r0, e, if ok then Staged(e, p, g) else e, rows);
    if RunsInTime(d.run, me.provider) { InTimeBefore(r1, d.run, me.provider); }
  }

  /** What the builder relies on when it moves `graph.tmp` onto the link. */
  ghost predicate ReadyToSwap(e: Files, p: Provider, g: Gen) {
    g.provider == p && p in e.staged && e.staged[p] == g && g in e.dirs
  }

  lemma SwappedNames(e: Files, p: Provider, g: Gen)
    requires ReadyToSwap(e, p, g)
    ensures g.provider == p && g in e.dirs
    ensures Resolved(Swapped(e, p), p) == Some(g) && Swapped(e, p).dirs == e.dirs && AsPublished(Swapped(e, p), g)
  {
  }

  lemma ReadyAlike(e: Files, f: Files, p: Provider, g: Gen)
    requires SameFor(e, f, p) && ReadyToSwap(e, p, g)
    ensures ReadyToSwap(f, p, g) && SameFor(Swapped(e, p), Swapped(f, p), p)
  {
    SwappedAlike(e, f, p);
  }

  /** `os.replace` of a `graph.tmp` that is there. */
  method ReplaceLink(d: Deployment, b: nat, me: Builder, g: Gen, ghost r0: Run, ghost e: Files, ghost rows: set<nat>)
    requires me.phase == Swap(g) && At(d, b, me, r0, e, rows) && ReadyToSwap(e, me.provider, g)
    requires me.provider in d.staged
    modifies d`links, d`staged, d`published, d`builders, d`run, d.locks
    ensures At(d, b, me.(phase := Leave), d.run, Swapped(e, me.provider), rows) && Extends(old(d.run), d.run)
    ensures LinkSwapped(r0, d.run, b, me.provider, g, e.dirs[g], |old(d.run).acts|)
  {
    hide IsRun, StepOk, Apply, OwnRows, RunsInTime, SameFor, Kept, Tracks, Extends, LinkSwapped, ReadyToSwap, Resolved,
         AsPublished;
    var p := me.provider;
    ghost var r1, s := d.run, d.Abs();
    BuilderStepIsAnAction(s, BSwap(b));
    var target := d.staged[p];
    d.links := d.links[p := target];
    if target in d.dirs {
      d.published := d.published[target := d.dirs[target]];
    }
    d.staged := d.staged - {p};
    if SameFor(e, s.files, p) { ReadyAlike(e, s.files, p, g); }
    Commit(d, BSwap(b), b, s, me, Some(me.(phase := Leave)), None, e, Swapped(e, p), rows);
    SwappedNames(e, p, g);
    LinkSwappedNow(r0, r1, d.run, b, p, g, e.dirs[g], Swapped(e, p));
  }

  /** `os.replace` when `graph.tmp` is gone, which somebody else's build must have taken. */
  method FailToReplace(d: Deployment, b: nat, me: Builder, g: Gen, ghost r0: Run, ghost e: Files, ghost rows: set<nat>)
    requires me.phase == Swap(g) && At(d, b, me, r0, e, rows) && me.provider in e.staged && me.provider !in d.staged
    modifies d`builders, d`run, d.locks
    ensures At(d, b, me.(phase := Leave), r0, e, rows)
    ensures !RunsInTime(d.run, me.provider)
  {
    hide IsRun, StepOk, Apply, OwnRows, RunsInTime, Kept, Extends;
    ghost var r1, s := d.run, d.Abs();
    assert !RunsInTime(r1, me.provider);
    BuilderStepIsAnAction(s, BSwap(b));
    CommitInPlace(d, BSwap(b), b, s, me, Some(me.(phase := Leave)), None, r0, e, e, rows);
    NotInTimeLater(r1, d.run, me.provider);
  }

  /**
   * `swap_graph_link`: it stages a new link next to the old one and moves it over. In time it does
   * so exactly when the system lets it, whatever `graph.tmp` an earlier crash has left.
   */
  method SwapGraphLink(d: Deployment, b: nat, me: Builder, g: Gen, w: Programs, ghost r0: Run, ghost e: Files,
                       ghost rows: set<nat>)
    returns (ok: bool, ghost e': Files, ghost swap: nat)
    requires me.phase == Unstage(g) && g.provider == me.provider && g in e.dirs && At(d, b, me, r0, e, rows)
    modifies d`now, d`stamp, d`monotonic, d`links, d`staged, d`dirs, d`published, d`builders, d`workers, d`run,
             d`statusCalls, d.locks
    ensures d.statusCalls == old(d.statusCalls) + [StageCall(Swapping)]
    ensures ok ==> LinkSwapped(r0, d.run, b, me.provider, g, e.dirs[g], swap)
    ensures ok ==> At(d, b, me.(phase := Leave), d.run, e', rows)
    ensures !ok ==> At(d, b, me.(phase := Leave), r0, e', rows) && e'.links == e.links
    ensures e'.dirs == e.dirs
    ensures ok ==> w.replacesLink
    ensures RunsInTime(d.run, me.provider) ==> ok == w.replacesLink
  {
    hide IsRun, StepOk, Apply, OwnRows, RunsInTime, SameFor, Kept, Tracks, Extends, LinkSwapped, At;
    d.statusCalls := d.statusCalls + [StageCall(Swapping)];
    var p := me.provider;
    var refusedAt: nat := *;
    swap, e' := 0, e;
    if !w.replacesLink && refusedAt == 0 {
      GiveUp(d, b, me, r0, e', rows);
      return false, e', 0;
    }
    UnlinkStaged(d, b, me, g, r0, e', rows);
    e' := Unstaged(e', p);
    if !w.replacesLink && refusedAt == 1 {
      GiveUp(d, b, me.(phase := Link(g)), r0, e', rows);
      return false, e', 0;
    }
    ok := LinkStaged(d, b, me.(phase := Link(g)), g, r0, e', rows);
    if !ok {
      return false, e', 0;
    }
    e' := Staged(e', p, g);
    if !w.replacesLink {
      GiveUp(d, b, me.(phase := Swap(g)), r0, e', rows);
      return false, e', 0;
    }
    Interfere(d, b, me.(phase := Swap(g)), r0, e', rows);
    if p !in d.staged {
      FailToReplace(d, b, me.(phase := Swap(g)), g, r0, e', rows);
      return false, e', 0;
    }
    swap := |d.run.acts|;
    ReplaceLink(d, b, me.(phase := Swap(g)), g, r0, e', rows);
    e' := Swapped(e', p);
  }
}
