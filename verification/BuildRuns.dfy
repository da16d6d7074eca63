/** `run_build`, `run_once` and `_sleep_until`. */
module BuildRuns {
  import opened Common
  import opened GraphLocks
  import opened LeaseProtocol
  import opened GenerationSafety
  import opened Interference
  import opened GenerationNames
  import opened BuildStatusFile
  import opened GraphDeployment
  import opened GraphBuilder
  import opened GraphBuilding
  import opened ReaderSafety

  /** What a build that succeeds tells the status file while it holds the lease. */
  function RunCalls(cfg: Settings, w: Programs, g: Gen): seq<Call> {
    [StageCall(Pruning)] + FetchCalls(w) + BuildCalls(cfg, g) + [StageCall(Swapping)]
  }

  /** Every program and every file access a build needs goes well. */
  ghost predicate AllGoesWell(cfg: Settings, w: Programs) {
    PbfReady(w) && (forall stage | stage in AllStages(cfg) :: Succeeds(w, stage)) && w.writesMeta && w.replacesLink
  }

  lemma LinkSwappedSinceEarlier(r0: Run, r1: Run, r: Run, b: nat, p: Provider, g: Gen, dir: Dir, swap: nat)
    requires Kept(r0, r1, BuilderProc(b)) && LinkSwapped(r1, r, b, p, g, dir, swap)
    ensures LinkSwapped(r0, r, b, p, g, dir, swap)
    ensures Extends(r1, r) && swap < |r.acts| && (RunsInTime(r, p) ==> RunsInTime(r1, p))
  {
    if RunsInTime(r, p) { InTimeBefore(r1, r, p); }
    forall k | |r0.acts| <= k < |r.acts| && By(r.acts[k]) == Some(BuilderProc(b)) && k != swap
      ensures r.states[k + 1].files.links == r.states[k].files.links
    {
      if k < |r1.acts| {
        assert r1.acts[k] == r.acts[k] && r1.states[k] == r.states[k] && r1.states[k + 1] == r.states[k + 1];
      }
    }
  }

  /** `build_graph`, `write_build_meta` and `swap_graph_link`. */
  method MakeAndSwap(d: Deployment, b: nat, me: Builder, w: Programs, ghost r0: Run, ghost e: Files,
                     ghost rows: set<nat>)
    returns (r: Result<Gen, BuildFailure>, ghost dir: Dir, ghost e': Files, ghost swap: nat)
    requires me.phase == Fetch && At(d, b, me, r0, e, rows)
    modifies d`now, d`stamp, d`monotonic, d`links, d`staged, d`dirs, d`published, d`builders, d`workers, d`run,
             d`statusCalls, d.locks
    ensures r.Ok? ==> && r.value.provider == me.provider && Whole(d.cfg, dir) && w.writesMeta && w.replacesLink
                      && (forall stage | stage in AllStages(d.cfg) :: Succeeds(w, stage))
                      && LinkSwapped(r0, d.run, b, me.provider, r.value, dir, swap)
                      && At(d, b, me.(phase := Leave), d.run, e', rows)
                      && d.statusCalls == old(d.statusCalls) + BuildCalls(d.cfg, r.value) + [StageCall(Swapping)]
    ensures r.Raised? ==> At(d, b, me.(phase := Leave), r0, e', rows) && old(d.statusCalls) <= d.statusCalls
    ensures RunsInTime(d.run, me.provider) ==>
              && (r.Raised? ==> e'.links == e.links && Excused(d.cfg, w, e, me.provider, r.error))
              && (r.Ok? ==> r.value !in e.dirs && e'.dirs == e.dirs[r.value := dir])
              && forall g | g in e.dirs :: g in e'.dirs && e'.dirs[g] == e.dirs[g]
    ensures r.Raised? ==> !r.error.GenerationHeld?
    ensures NamedByClock(r0, d.run, b, me.provider, r)
  {
    hide At, RunsInTime, LinkSwapped, Extends, Kept, Succeeds, FetchCalls, BuildCalls, AllStages, Excused, Stale,
         CaughtUp, ClockNamed;
    swap := 0;
    ExcusedOutside(d.cfg, w, e, me.provider);
    r, dir, e' := BuildGraph(d, b, me, w, r0, e, rows);
    if r.Raised? {
      return;
    }
    var g := r.value;
    var building := me.(phase := Build(g, []));
    ghost var r1 := d.run;
    AtFromHere(d, b, building, r0, e', rows);
    var ok := WriteBuildMeta(d, b, building, g, w, dir, r1, e, rows);
    if !ok {
      AtSinceEarlier(d, b, me.(phase := Leave), r0, r1, e', rows);
      return Raised(MetaFailed), dir, e', 0;
    }
    dir := dir.(meta := true);
    e' := Edited(e, g, dir);
    ok, e', swap := SwapGraphLink(d, b, me.(phase := Unstage(g)), g, w, r1, e', rows);
    if !ok {
      AtSinceEarlier(d, b, me.(phase := Leave), r0, r1, e', rows);
      return Raised(SwapFailed), dir, e', 0;
    }
    LinkSwappedSinceEarlier(r0, r1, d.run, b, me.provider, g, dir, swap);
    StaysNamed(r0, r0, r1, d.run, b, me.provider, r);
  }

  /** What has been pruned is no excuse. */
  lemma ExcusedBefore(cfg: Settings, w: Programs, e: Files, removed: seq<Gen>, p: Provider, error: BuildFailure)
    requires Excused(cfg, w, AllRemoved(e, removed), p, error)
    ensures Excused(cfg, w, e, p, error)
  {
    AllRemovedDirs(e, removed);
  }

  lemma HeldIsStale(e: Files, p: Provider, others: seq<Gen>, i: nat)
    requires IsListing(others, Stale(e, p)) && i < |others|
    ensures others[i] in Stale(e, p)
  {
    assert others[i] in set g | g in others;
  }

  /** The link and the generation it names are not touched by pruning. */
  lemma PruningKeepsCurrent(cfg: Settings, e: Files, p: Provider, others: seq<Gen>, removed: seq<Gen>)
    requires IsListing(others, Stale(e, p)) && removed <= others[Retaining(cfg, others)..]
    ensures AllRemoved(e, removed).links == e.links
    ensures p in e.links && e.links[p] in e.dirs ==>
              e.links[p] in AllRemoved(e, removed).dirs && AllRemoved(e, removed).dirs[e.links[p]] == e.dirs[e.links[p]]
  {
    AllRemovedDirs(e, removed);
    if p in e.links && e.links[p] in removed {
      var i :| 0 <= i < |removed| && removed[i] == e.links[p];
      HeldIsStale(e, p, others, Retaining(cfg, others) + i);
    }
  }

  /** The current graph is kept: the link, and what it names. */
  ghost predicate CurrentKept(e: Files, e': Files, p: Provider) {
    p in e.links && e.links[p] in e.dirs ==> e.links[p] in e'.dirs && e'.dirs[e.links[p]] == e.dirs[e.links[p]]
  }

  /** What is on disk once a build has succeeded: the new generation and all that was not pruned. */
  ghost predicate BuiltOnDisk(cfg: Settings, e: Files, e': Files, p: Provider, g: Gen, dir: Dir) {
    exists others ::
      IsListing(others, Stale(e, p)) && e'.dirs == AllRemoved(e, others[Retaining(cfg, others)..]).dirs[g := dir]
  }

  /** What a build makes of its provider's files `e`, in time. */
  ghost predicate BuildOutcome(cfg: Settings, w: Programs, e: Files, e': Files, p: Provider,
                               r: Result<Gen, BuildFailure>, dir: Dir) {
    && CurrentKept(e, e', p)
    && (r.Raised? ==> e'.links == e.links && Excused(cfg, w, e, p, r.error))
    && (r.Ok? ==> BuiltOnDisk(cfg, e, e', p, r.value, dir))
  }

  lemma PruneAborted(cfg: Settings, w: Programs, e: Files, p: Provider, others: seq<Gen>, removed: seq<Gen>, dir: Dir)
    requires IsListing(others, Stale(e, p)) && removed < others[Retaining(cfg, others)..]
    ensures BuildOutcome(cfg, w, e, AllRemoved(e, removed), p,
                         Raised(GenerationHeld(others[Retaining(cfg, others) + |removed|])), dir)
  {
    hide IsListing, Stale, AllRemoved;
    PruningKeepsCurrent(cfg, e, p, others, removed);
    HeldIsStale(e, p, others, Retaining(cfg, others) + |removed|);
  }

  lemma PbfUnavailable(cfg: Settings, w: Programs, e: Files, p: Provider, others: seq<Gen>, dir: Dir)
    requires IsListing(others, Stale(e, p)) && !PbfReady(w)
    ensures BuildOutcome(cfg, w, e, AllRemoved(e, others[Retaining(cfg, others)..]), p, Raised(PbfFailed), dir)
  {
    hide IsListing, Stale, AllRemoved, PbfReady;
    PruningKeepsCurrent(cfg, e, p, others, others[Retaining(cfg, others)..]);
  }

  lemma BuildTried(cfg: Settings, w: Programs, e: Files, e': Files, p: Provider, others: seq<Gen>,
                   r: Result<Gen, BuildFailure>, dir: Dir)
    requires IsListing(others, Stale(e, p))
    requires var e1 := AllRemoved(e, others[Retaining(cfg, others)..]);
             && (r.Raised? ==> e'.links == e1.links && Excused(cfg, w, e1, p, r.error))
             && (r.Ok? ==> e'.dirs == e1.dirs[r.value := dir])
             && forall g | g in e1.dirs :: g in e'.dirs && e'.dirs[g] == e1.dirs[g]
    ensures BuildOutcome(cfg, w, e, e', p, r, dir)
  {
    hide IsListing, Stale, AllRemoved, Excused;
    PruningKeepsCurrent(cfg, e, p, others, others[Retaining(cfg, others)..]);
    if r.Raised? { ExcusedBefore(cfg, w, e, others[Retaining(cfg, others)..], p, r.error); }
  }

  /** Everything `run_build` does while it holds the lease on the provider's directory. */
  method BuildUnderLease(d: Deployment, b: nat, me: Builder, w: Programs, timeout: real, ghost r0: Run,
                         ghost e: Files, ghost rows: set<nat>)
    returns (r: Result<Gen, BuildFailure>, ghost dir: Dir, ghost e': Files, ghost swap: nat)
    requires me.phase == Look && w.passes <= |w.updates| && At(d, b, me, r0, e, rows)
    modifies d`now, d`stamp, d`monotonic, d`naps, d`links, d`staged, d`dirs, d`published, d`builders, d`workers,
             d`run, d`statusCalls, d.locks
    ensures r.Ok? ==> && r.value.provider == me.provider && Whole(d.cfg, dir) && AllGoesWell(d.cfg, w)
                      && LinkSwapped(r0, d.run, b, me.provider, r.value, dir, swap)
                      && At(d, b, me.(phase := Leave), d.run, e', rows)
                      && d.statusCalls == old(d.statusCalls) + RunCalls(d.cfg, w, r.value)
    ensures r.Raised? ==> At(d, b, me.(phase := Leave), r0, e', rows) && old(d.statusCalls) <= d.statusCalls
    ensures RunsInTime(d.run, me.provider) ==> BuildOutcome(d.cfg, w, e, e', me.provider, r, dir)
    ensures r.Raised? && r.error.GenerationHeld? ==>
              GaveUpWaiting(r0, d.run, b, r.error.gen) && d.monotonic >= old(d.monotonic) + timeout
    ensures NamedByClock(r0, d.run, b, me.provider, r)
    ensures Polls(d.run, |r0.acts|, old(d.naps), d.naps, BuilderProc(b))
    ensures RunsInTime(d.run, me.provider) ==> Slept(d.naps) <= Slept(old(d.naps)) + Patience(timeout)
  {
    hide Polls, Slept, Patience, ClockNamed, At, RunsInTime, LinkSwapped, Extends, Kept, Succeeds, FetchCalls,
         BuildCalls, AllStages, Excused, Stale, CaughtUp, IsListing, Retaining, AllRemoved, PbfReady, Whole,
         BuildOutcome;
    dir, swap := EMPTY_DIR, 0;
    var pruned;
    ghost var others, removed;
    pruned, others, removed := PruneGenerations(d, b, me, timeout, r0, e, rows);
    e' := AllRemoved(e, removed);
    if pruned.Raised? {
      r := Raised(pruned.error);
      if RunsInTime(d.run, me.provider) { PruneAborted(d.cfg, w, e, me.provider, others, removed, dir); }
      return;
    }
    ghost var r1, e1 := d.run, e';
    AtFromHere(d, b, me.(phase := Fetch), r0, e1, rows);
    var ok := FetchPbf(d, b, me.(phase := Fetch), w, r1, e1, rows);
    if !ok {
      AtExtends(d, b, me.(phase := Leave), r1, e1, rows);
      PollsStay(r1, d.run, |r0.acts|, old(d.naps), d.naps, BuilderProc(b));
      AtSinceEarlier(d, b, me.(phase := Leave), r0, r1, e1, rows);
      if RunsInTime(d.run, me.provider) { PbfUnavailable(d.cfg, w, e, me.provider, others, dir); }
      return Raised(PbfFailed), dir, e', 0;
    }
    r, dir, e', swap := MakeAndSwap(d, b, me.(phase := Fetch), w, r1, e1, rows);
    KeptIsLonger(r0, r1, BuilderProc(b));
    NamedSince(r0, r1, d.run, b, me.provider, r);
    if r.Raised? {
      AtExtends(d, b, me.(phase := Leave), r1, e', rows);
      AtSinceEarlier(d, b, me.(phase := Leave), r0, r1, e', rows);
    } else {
      LinkSwappedSinceEarlier(r0, r1, d.run, b, me.provider, r.value, dir, swap);
    }
    PollsStay(r1, d.run, |r0.acts|, old(d.naps), d.naps, BuilderProc(b));
    if RunsInTime(d.run, me.provider) { BuildTried(d.cfg, w, e, e', me.provider, others, r, dir); }
  }

  // ----- run_build -----

  datatype Outcome = Built(gen: Gen) | Skipped

  /** Just before state `start` the builder was granted the lease on its provider's directory. */
  ghost predicate LeasedAt(r0: Run, r: Run, b: nat, p: Provider, start: nat) {
    && |r0.acts| < start <= |r.acts| && start < |r.states|
    && r.acts[start - 1].BStart? && By(r.acts[start - 1]) == Some(BuilderProc(b))
    && PlaceOf(r.states[start], BuilderProc(b)).builder.Some?
    && PlaceOf(r.states[start], BuilderProc(b)).builder.value.provider == p
  }

  lemma StaysLeased(r0: Run, r: Run, r': Run, b: nat, p: Provider, start: nat)
    requires LeasedAt(r0, r, b, p, start) && Extends(r, r')
    ensures LeasedAt(r0, r', b, p, start)
  {
    StatesAreKept(r, r', start - 1);
    StatesAreKept(r, r', start);
  }

  /** The first thing the builder did since `r0` was to ask for its provider's lease, as action `at` of the run. */
  ghost predicate AsksAtOnce(r0: Run, r: Run, b: nat, p: Provider, at: int) {
    && |r0.acts| <= at && Asks(r, at, BuilderProc(b), ProviderDir(p), Exclusive)
    && forall k | |r0.acts| <= k < at :: By(r.acts[k]) != Some(BuilderProc(b))
  }

  lemma AskedAtOnce(r0: Run, r: Run, b: nat, p: Provider)
    requires |r0.acts| < |r.acts| && OwnActions(r.acts[|r0.acts|..], BuilderProc(b)) == 1
    requires Asks(r, |r.acts| - 1, BuilderProc(b), ProviderDir(p), Exclusive)
    ensures AsksAtOnce(r0, r, b, p, |r.acts| - 1)
  {
    OnlyTheLast(r, |r0.acts|, BuilderProc(b));
  }

  /** The attempt, and that it was granted, are still so in a longer run. */
  lemma StaysAsked(r0: Run, r: Run, r': Run, b: nat, p: Provider)
    requires AsksAtOnce(r0, r, b, p, |r.acts| - 1) && Extends(r, r')
    requires LetIn(r, |r.acts| - 1, BuilderProc(b), ProviderDir(p), Exclusive)
    ensures AsksAtOnce(r0, r', b, p, |r.acts| - 1)
    ensures !Refused(r', |r.acts| - 1, BuilderProc(b), ProviderDir(p), Exclusive)
  {
    hide Blocked, Reap;
    StatesAreKept(r, r', |r.acts| - 1);
  }

  /** `lock_exclusive` on the provider's directory: a single attempt, without any sleep. */
  method LeaseProvider(d: Deployment, b: nat, p: Provider, ghost rows: set<nat>) returns (lease: Option<Lease>)
    requires d.Valid() && b !in d.builders && OwnRows(d.locks.Contents(), BuilderProc(b)) <= rows
    modifies d`now, d`stamp, d`monotonic, d`naps, d`links, d`staged, d`dirs, d`published, d`builders, d`workers,
             d`run, d.locks
    ensures lease.Some? ==> && Kept(old(d.run), d.run, BuilderProc(b))
                            && At(d, b, Builder(p, lease.value, Look), d.run, d.Volume(), rows + {lease.value.id})
                            && LeasedAt(old(d.run), d.run, b, p, |d.run.acts|)
    ensures lease.None? ==>
              && d.Valid() && b !in d.builders && Extends(old(d.run), d.run) && |old(d.run).acts| < |d.run.acts|
              && FilesQuiet(d.run, |old(d.run).acts|, BuilderProc(b))
              && OwnRows(d.locks.Contents(), BuilderProc(b)) <= rows
    ensures d.monotonic >= old(d.monotonic) && d.naps == old(d.naps)
    ensures |old(d.run).acts| < |d.run.acts| && OwnActions(d.run.acts[|old(d.run).acts|..], BuilderProc(b)) == 1
    ensures AsksAtOnce(old(d.run), d.run, b, p, |d.run.acts| - 1)
    ensures if lease.Some? then LetIn(d.run, |d.run.acts| - 1, BuilderProc(b), ProviderDir(p), Exclusive)
            else Refused(d.run, |d.run.acts| - 1, BuilderProc(b), ProviderDir(p), Exclusive)
  {
    hide IsRun, StepOk, Apply, Enabled, OwnRows, Untouched, OnlyOthers, SameFor, Kept, RunsInTime, Extends, FilesQuiet,
         OwnActions, OnlyRefused, Asks, Blocked, Slept, NapOk;
    ghost var r0, f0 := d.run, d.Volume();
    lease := d.Acquire(ForBuild(b, p), 0.0, true);
    AskedAtOnce(r0, d.run, b, p);
    UntouchedExtends(r0, f0, d.run, d.Volume(), BuilderProc(b), None);
    UntouchedIsKept(r0, f0, d.run, d.Volume(), BuilderProc(b), None);
    TracksAtFirst(d.run, d.Volume(), p);
    KeptAtFirst(d.run, BuilderProc(b));
  }

  lemma KeptAtFirst(r: Run, me: Holder)
    requires |r.states| == |r.acts| + 1
    ensures Kept(r, r, me)
  {
  }

  /** The provider lease is released; the builder is through. */
  method LeaveBuild(d: Deployment, b: nat, me: Builder, ghost r0: Run, ghost e: Files, ghost rows: set<nat>)
    requires me.phase == Leave && At(d, b, me, r0, e, rows)
    modifies d`now, d`stamp, d`monotonic, d`links, d`staged, d`dirs, d`published, d`builders, d`workers, d`run, d.locks
    ensures d.Valid() && b !in d.builders && Kept(r0, d.run, BuilderProc(b))
    ensures Tracks(d.run, e, d.Volume(), me.provider)
    ensures OwnRows(d.locks.Contents(), BuilderProc(b)) <= rows - {me.lease.id}
    ensures d.monotonic >= old(d.monotonic)
  {
    hide IsRun, StepOk, Apply, OwnRows, RunsInTime, SameFor, Kept, Tracks, Extends;
    Interfere(d, b, me, r0, e, rows);
    ghost var s := d.Abs();
    BuilderStepIsAnAction(s, BLeave(b));
    CommitInPlace(d, BLeave(b), b, s, me, None, Some(me.lease.id), r0, e, e, rows);
  }

  /** What holds of the run when the lease was granted at the end of `r1` and the build came to its end in `r2`. */
  lemma SinceTheLease(r0: Run, r1: Run, r2: Run, r: Run, me: Holder, p: Provider)
    requires Kept(r0, r1, me) && Extends(r1, r2) && Kept(r2, r, me)
    ensures Extends(r0, r) && |r0.acts| <= |r1.acts| < |r.states| && r.states[|r1.acts|] == r1.states[|r1.acts|]
    ensures Extends(r1, r)
    ensures RunsInTime(r, p) ==> RunsInTime(r2, p)
  {
    if RunsInTime(r, p) { InTimeBefore(r2, r, p); }
  }

  /** The part of `run_build` under the lease that was granted at the end of the run so far, and its release. */
  method BuildAndRelease(d: Deployment, b: nat, me: Builder, w: Programs, timeout: real, ghost r0: Run,
                         ghost rows: set<nat>)
    returns (built: Result<Gen, BuildFailure>, ghost dir: Dir, ghost e': Files, ghost swap: nat)
    requires me.phase == Look && w.passes <= |w.updates|
    requires At(d, b, me, d.run, d.Volume(), rows) && Kept(r0, d.run, BuilderProc(b))
    modifies d`now, d`stamp, d`monotonic, d`naps, d`links, d`staged, d`dirs, d`published, d`builders, d`workers,
             d`run, d`statusCalls, d.locks
    ensures d.Valid() && b !in d.builders && Extends(r0, d.run) && Extends(old(d.run), d.run)
    ensures OwnRows(d.locks.Contents(), BuilderProc(b)) <= rows - {me.lease.id}
    ensures built.Ok? ==> && AllGoesWell(d.cfg, w) && Whole(d.cfg, dir)
                          && LinkSwapped(r0, d.run, b, me.provider, built.value, dir, swap) && swap < |d.run.acts|
                          && d.statusCalls == old(d.statusCalls) + RunCalls(d.cfg, w, built.value)
    ensures built.Raised? ==> Kept(r0, d.run, BuilderProc(b)) && old(d.statusCalls) <= d.statusCalls
    ensures |r0.acts| <= |old(d.run).acts| < |d.run.states|
    ensures RunsInTime(d.run, me.provider) ==>
              && SameFor(e', d.Volume(), me.provider)
              && BuildOutcome(d.cfg, w, d.run.states[|old(d.run).acts|].files, e', me.provider, built, dir)
    ensures built.Raised? && built.error.GenerationHeld? ==>
              GaveUpWaiting(r0, d.run, b, built.error.gen) && d.monotonic >= old(d.monotonic) + timeout
    ensures NamedByClock(r0, d.run, b, me.provider, built)
    ensures Polls(d.run, |old(d.run).acts|, old(d.naps), d.naps, BuilderProc(b))
    ensures RunsInTime(d.run, me.provider) ==> Slept(d.naps) <= Slept(old(d.naps)) + Patience(timeout)
  {
    hide Polls, Slept, Patience, NamedByClock, IsRun, StepOk, Apply, Enabled, OwnRows, SameFor, Kept, RunsInTime,
         Extends, LinkSwapped, BuildOutcome, Whole, AllGoesWell, RunCalls, GaveUpWaiting;
    ghost var r1, e := d.run, d.Volume();
    assert r1.states[|r1.acts|].files == e;
    built, dir, e', swap := BuildUnderLease(d, b, me, w, timeout, r1, e, rows);
    ghost var r2 := d.run;
    if built.Raised? {
      AtFromHere(d, b, me.(phase := Leave), r1, e', rows);
      KeptIsLonger(r1, r2, BuilderProc(b));
      KeptTransitive(r0, r1, r2, BuilderProc(b));
    } else {
      LinkSwappedSinceEarlier(r0, r1, r2, b, me.provider, built.value, dir, swap);
    }
    LeaveBuild(d, b, me.(phase := Leave), r2, e', rows);
    SinceTheLease(r0, r1, r2, d.run, BuilderProc(b), me.provider);
    if built.Raised? {
      KeptTransitive(r0, r2, d.run, BuilderProc(b));
      KeptIsLonger(r2, d.run, BuilderProc(b));
      if built.error.GenerationHeld? { GaveUpEarlier(r0, r1, r2, d.run, b, built.error.gen); }
    } else {
      LinkStaysSwapped(r0, r2, d.run, b, me.provider, built.value, dir, swap);
      KeptIsLonger(r2, d.run, BuilderProc(b));
    }
    StaysNamed(r0, r1, r2, d.run, b, me.provider, built);
    PollsStay(r2, d.run, |r1.acts|, old(d.naps), d.naps, BuilderProc(b));
  }

  /**
   * `run_build`. `queues` tells whether the update job can be queued, `built` is how the build
   * itself ended, and `e'` is the volume it leaves, in time, of the one it found in state `start`.
   */
  method RunBuild(d: Deployment, b: nat, p: Provider, w: Programs, timeout: real, queues: bool)
    returns (r: Result<Outcome, BuildFailure>, ghost built: Result<Gen, BuildFailure>,
             ghost start: nat, ghost swap: nat, ghost dir: Dir, ghost e': Files)
    requires d.Valid() && b !in d.builders && w.passes <= |w.updates|
    modifies d`now, d`stamp, d`monotonic, d`naps, d`links, d`staged, d`dirs, d`published, d`builders, d`workers,
             d`run, d`statusCalls, d`enqueued, d`queuedAt, d.locks
    // Whatever happens, the run's own leases are given back.
    ensures d.Valid() && b !in d.builders && Extends(old(d.run), d.run)
    ensures OwnRows(d.locks.Contents(), BuilderProc(b)) <= old(OwnRows(d.locks.Contents(), BuilderProc(b)))
    // The first thing it does is to ask for the lease, once, and without it the run gives way there and then.
    ensures AsksAtOnce(old(d.run), d.run, b, p, start - 1)
    ensures r == Ok(Skipped) <==> Refused(d.run, start - 1, BuilderProc(b), ProviderDir(p), Exclusive)
    ensures r == Ok(Skipped) ==> start == |d.run.acts| && d.naps == old(d.naps)
    // A run that gives way does nothing to the volume or the status, and queues nothing.
    ensures r == Ok(Skipped) ==>
              && FilesQuiet(d.run, |old(d.run).acts|, BuilderProc(b)) && d.statusCalls == old(d.statusCalls)
              && d.enqueued == old(d.enqueued) && d.queuedAt == old(d.queuedAt)
    // It sleeps only under the lease, between two requests for a generation, and in time no longer than the timeout.
    ensures start >= 0 && Polls(d.run, start, old(d.naps), d.naps, BuilderProc(b))
    ensures RunsInTime(d.run, p) ==> Slept(d.naps) <= Slept(old(d.naps)) + Patience(timeout)
    ensures r != Ok(Skipped) ==>
              r == (if built.Raised? then Raised(built.error)
                    else if queues then Ok(Built(built.value)) else Raised(EnqueueFailed))
    // A build that succeeds has moved the link, once, to a finished generation, before it queued the update.
    ensures r != Ok(Skipped) && built.Ok? ==>
              && AllGoesWell(d.cfg, w) && Whole(d.cfg, dir)
              && LinkSwapped(old(d.run), d.run, b, p, built.value, dir, swap)
              && d.statusCalls == old(d.statusCalls) + RunCalls(d.cfg, w, built.value) + [IdleCall(None)]
              && (if queues then && d.enqueued == old(d.enqueued) + [p]
                                 && (exists at :: swap < at <= |d.run.acts| && d.queuedAt == old(d.queuedAt) + [at])
                  else d.enqueued == old(d.enqueued) && d.queuedAt == old(d.queuedAt))
    // A build that fails has moved no link and queues nothing.
    ensures r != Ok(Skipped) && built.Raised? ==>
              && Kept(old(d.run), d.run, BuilderProc(b))
              && d.enqueued == old(d.enqueued) && d.queuedAt == old(d.queuedAt) && old(d.statusCalls) <= d.statusCalls
              && (built.error.GenerationHeld? ==>
                    && GaveUpWaiting(old(d.run), d.run, b, built.error.gen)
                    && d.monotonic >= old(d.monotonic) + timeout)
    // Otherwise it was granted the lease, and the clock has named what was built, and what could not be made.
    ensures r != Ok(Skipped) ==>
              LeasedAt(old(d.run), d.run, b, p, start) && NamedByClock(old(d.run), d.run, b, p, built)
    // In time nobody else changes the provider's files meanwhile.
    ensures r != Ok(Skipped) && RunsInTime(d.run, p) ==>
              BuildOutcome(d.cfg, w, d.run.states[start].files, e', p, built, dir) && SameFor(e', d.Volume(), p)
  {
    hide *;
    ghost var r0, rows := d.run, OwnRows(d.locks.Contents(), BuilderProc(b));
    built, start, swap, dir, e' := Raised(EnqueueFailed), 0, 0, EMPTY_DIR, EMPTY_FILES;
    var lease := LeaseProvider(d, b, p, rows);
    start := |d.run.acts|;
    NoPatience(timeout);
    if lease.None? {
      NoNaps(d.run, start, d.naps, BuilderProc(b));
      return Ok(Skipped), built, start, swap, dir, e';
    }
    ghost var r1 := d.run;
    var generation;
    generation, dir, e', swap :=
        BuildAndRelease(d, b, Builder(p, lease.value, Look), w, timeout, r0, rows + {lease.value.id});
    built := generation;
    StaysLeased(r0, r1, d.run, b, p, start);
    StaysAsked(r0, r1, d.run, b, p);
    if generation.Raised? {
      return Raised(generation.error), built, start, swap, dir, e';
    }
    d.statusCalls := d.statusCalls + [IdleCall(None)];
    if !queues {
      return Raised(EnqueueFailed), built, start, swap, dir, e';
    }
    d.enqueued, d.queuedAt := d.enqueued + [p], d.queuedAt + [|d.run.acts|];
    r := Ok(Built(generation.value));
  }

  // ----- run_once -----

  lemma CallsInOrder(before: seq<Call>, cfg: Settings, w: Programs, g: Gen)
    ensures before + RunCalls(cfg, w, g) + [IdleCall(None)] + [IdleCall(Some(ExternallyControlled))]
            == before
                + [StageCall(Pruning), StageCall(if w.pbfExists then UpdatingPbf else DownloadingPbf),
                   StageCall(BuildingTiles), GenerationCall(NameOf(g.stamp))]
                + (if cfg.elevation then [StageCall(BuildingElevation)] else [])
                + [StageCall(EnhancingTiles), StageCall(Swapping), IdleCall(None), IdleCall(Some(ExternallyControlled))]
  {
    hide NameOf;
  }

  /** What it means that all went well. */
  lemma WellDone(cfg: Settings, w: Programs, dir: Dir)
    ensures AllGoesWell(cfg, w) ==>
              && (if w.pbfExists then w.passes == 0 || CaughtUp(w.updates, w.passes) else w.download == 0)
              && w.writesMeta && w.replacesLink
    ensures AllGoesWell(cfg, w) && Whole(cfg, dir) ==>
              forall stage | stage in dir.done :: stage in w.stages && w.stages[stage] == 0
    ensures Whole(cfg, dir) ==>
              && dir.done == (if cfg.elevation then [ConfigStage, TileStage, ElevationStage, EnhanceStage]
                              else [ConfigStage, TileStage, EnhanceStage])
              && dir.meta && !dir.torn
  {
    hide CaughtUp;
  }

  const EXIT_OK := 0
  const EXIT_FAILED := 1
  const EXIT_LOCKED := 75

  /** `run_once`: one build, its outcome as an exit code. */
  method RunOnce(d: Deployment, b: nat, p: Provider, w: Programs, timeout: real, queues: bool)
    returns (exit: int, ghost built: Result<Gen, BuildFailure>, ghost start: nat, ghost swap: nat, ghost dir: Dir,
             ghost e': Files)
    requires d.Valid() && b !in d.builders && w.passes <= |w.updates|
    modifies d`now, d`stamp, d`monotonic, d`naps, d`links, d`staged, d`dirs, d`published, d`builders, d`workers,
             d`run, d`statusCalls, d`enqueued, d`queuedAt, d.locks
    ensures d.Valid() && b !in d.builders && Extends(old(d.run), d.run)
    ensures OwnRows(d.locks.Contents(), BuilderProc(b)) <= old(OwnRows(d.locks.Contents(), BuilderProc(b)))
    ensures exit in {EXIT_OK, EXIT_FAILED, EXIT_LOCKED}
    // It makes a single attempt at the lease, at once and without any sleep, which decides whether it builds.
    ensures AsksAtOnce(old(d.run), d.run, b, p, start - 1)
    ensures exit == EXIT_LOCKED <==> Refused(d.run, start - 1, BuilderProc(b), ProviderDir(p), Exclusive)
    ensures exit == EXIT_LOCKED ==> start == |d.run.acts| && d.naps == old(d.naps)
    ensures start >= 0 && Polls(d.run, start, old(d.naps), d.naps, BuilderProc(b))
    ensures RunsInTime(d.run, p) ==> Slept(d.naps) <= Slept(old(d.naps)) + Patience(timeout)
    // Every program has exited with zero, and the generation has every stage.
    ensures exit == EXIT_OK ==>
              && (if w.pbfExists then w.passes == 0 || CaughtUp(w.updates, w.passes) else w.download == 0)
              && (forall stage | stage in dir.done :: stage in w.stages && w.stages[stage] == 0)
              && dir.done == (if d.cfg.elevation then [ConfigStage, TileStage, ElevationStage, EnhanceStage]
                              else [ConfigStage, TileStage, EnhanceStage])
              && dir.meta && !dir.torn && w.writesMeta && w.replacesLink
    ensures exit == EXIT_OK ==>
              && built.Ok? && AllGoesWell(d.cfg, w) && Whole(d.cfg, dir)
              && LinkSwapped(old(d.run), d.run, b, p, built.value, dir, swap)
              && d.enqueued == old(d.enqueued) + [p]
              && (exists at :: swap < at <= |d.run.acts| && d.queuedAt == old(d.queuedAt) + [at])
              && d.statusCalls == old(d.statusCalls) + RunCalls(d.cfg, w, built.value)
                                  + [IdleCall(None), IdleCall(Some(ExternallyControlled))]
    // The status file has been told these stages, in this order.
    ensures exit == EXIT_OK ==>
              d.statusCalls == old(d.statusCalls)
                + [StageCall(Pruning), StageCall(if w.pbfExists then UpdatingPbf else DownloadingPbf),
                   StageCall(BuildingTiles), GenerationCall(NameOf(built.value.stamp))]
                + (if d.cfg.elevation then [StageCall(BuildingElevation)] else [])
                + [StageCall(EnhancingTiles), StageCall(Swapping), IdleCall(None), IdleCall(Some(ExternallyControlled))]
    ensures exit == EXIT_LOCKED ==>
              && FilesQuiet(d.run, |old(d.run).acts|, BuilderProc(b)) && d.statusCalls == old(d.statusCalls)
              && d.enqueued == old(d.enqueued) && d.queuedAt == old(d.queuedAt)
    // Otherwise it was granted the lease; in time the outcome of the build, and its cause if it failed, is this.
    ensures exit != EXIT_LOCKED ==>
              && LeasedAt(old(d.run), d.run, b, p, start) && NamedByClock(old(d.run), d.run, b, p, built)
              && (RunsInTime(d.run, p) ==>
                    && BuildOutcome(d.cfg, w, d.run.states[start].files, e', p, built, dir)
                    && SameFor(e', d.Volume(), p))
    ensures exit != EXIT_LOCKED ==> (exit == EXIT_OK <==> built.Ok? && queues)
    ensures exit == EXIT_FAILED && built.Raised? && built.error.GenerationHeld? ==>
              GaveUpWaiting(old(d.run), d.run, b, built.error.gen) && d.monotonic >= old(d.monotonic) + timeout
    // A failed run queues nothing and says so last. It has moved the link exactly if the build itself succeeded.
    ensures exit == EXIT_FAILED ==>
              && d.enqueued == old(d.enqueued) && d.queuedAt == old(d.queuedAt)
              && old(d.statusCalls) < d.statusCalls && d.statusCalls[|d.statusCalls| - 1].FailedCall?
              && (if built.Ok? then !queues && LinkSwapped(old(d.run), d.run, b, p, built.value, dir, swap)
                  else Kept(old(d.run), d.run, BuilderProc(b)))
  {
    hide IsRun, OwnRows, SameFor, Kept, RunsInTime, Extends, LinkSwapped, BuildOutcome, Whole, AllGoesWell, RunCalls,
         FilesQuiet, NameOf, AsksAtOnce, Polls, Refused, LeasedAt, NamedByClock, Slept, Patience;
    var outcome;
    outcome, built, start, swap, dir, e' := RunBuild(d, b, p, w, timeout, queues);
    if built.Ok? { WellDone(d.cfg, w, dir); }
    if outcome.Raised? {
      var error: string := *;
      d.statusCalls := d.statusCalls + [FailedCall(error)];
      return EXIT_FAILED, built, start, swap, dir, e';
    }
    if outcome.value.Skipped? {
      return EXIT_LOCKED, built, start, swap, dir, e';
    }
    d.statusCalls := d.statusCalls + [IdleCall(Some(ExternallyControlled))];
    CallsInOrder(old(d.statusCalls), d.cfg, w, built.value);
    exit := EXIT_OK;
  }

  /** From a successful build on the link names its generation or a newer one. */
  lemma LinkIsAsNewAfterwards(r0: Run, r1: Run, r: Run, b: nat, p: Provider, g: Gen, dir: Dir, swap: nat, i: nat)
    requires LinkSwapped(r0, r1, b, p, g, dir, swap) && Extends(r1, r)
    requires IsRun(r) && RunsInTime(r, p) && swap < i < |r.states|
    ensures p in r.states[i].files.links && r.states[i].files.links[p].stamp >= g.stamp
    ensures g in r.states[i].files.published && r.states[i].files.published[g] == dir
  {
    InTimeBefore(r1, r, p);
    StatesAreKept(r1, r, swap + 1);
    EveryRunKeepsApart(r, swap + 1);
    LinksMoveForward(r, swap + 1, i, p);
  }

  /** Moving on from stage to stage keeps what a build has reported. */
  lemma {:induction false} StagesKeepGeneration(calls: seq<(Call, int)>, more: seq<(Call, int)>)
    requires Replay(calls).state == Building && forall i | 0 <= i < |more| :: more[i].0.StageCall?
    ensures var r := Replay(calls + more);
            r.state == Building && r.generation == Replay(calls).generation && r.lastError == Replay(calls).lastError
    decreases |more|
  {
    if |more| == 0 {
      assert calls + more == calls;
    } else {
      StagesKeepGeneration(calls, more[..|more| - 1]);
      assert (calls + more)[..|calls + more| - 1] == calls + more[..|more| - 1];
    }
  }

  lemma ReplayStep(calls: seq<(Call, int)>, k: nat)
    requires k < |calls|
    ensures Replay(calls[..k + 1]) == AfterCall(Replay(calls[..k]), calls[k].0, calls[k].1)
  {
    assert calls[..k + 1][..k] == calls[..k];
  }

  /** What the calls of a successful run leave in the status file of a fresh process. */
  lemma {:induction false} ReportOfSuccess(cfg: Settings, w: Programs, g: Gen, timed: seq<(Call, int)>)
    requires var calls := RunCalls(cfg, w, g) + [IdleCall(None), IdleCall(Some(ExternallyControlled))];
             |timed| == |calls| && forall i | 0 <= i < |calls| :: timed[i].0 == calls[i]
    ensures var r := Replay(timed);
            && r.state == Idling && r.stage == None && r.nextBuildAt == Some(ExternallyControlled)
            && r.generation == Some(NameOf(g.stamp)) && r.lastError == None && r.startedAt == Some(timed[0].1)
  {
    hide NameOf;
    var n := |timed|;
    assert timed[..0] == [];
    ReplayStep(timed, 0);
    ReplayStep(timed, 1);
    ReplayStep(timed, 2);
    ReplayStep(timed, 3);
    StagesKeepGeneration(timed[..4], timed[4..n - 2]);
    assert timed[..4] + timed[4..n - 2] == timed[..n - 2];
    StartIsKeptWithinABuild(timed[..1], timed[1..n - 2]);
    assert timed[..1] + timed[1..n - 2] == timed[..n - 2];
    ReplayStep(timed, n - 2);
    ReplayStep(timed, n - 1);
    assert timed[..n] == timed;
  }

  // ----- _sleep_until -----

  const SLEEP_CHUNK := 30.0

  function Sum(xs: seq<real>): real {
    if |xs| == 0 then 0.0 else Sum(xs[..|xs| - 1]) + xs[|xs| - 1]
  }

  /** The scheduled builder: its clock, and the flag that a signal may set at any moment. */
  class Scheduler {
    const clock: Clock
    var stop: bool

    // The sleeps so far.
    ghost var sleeps: seq<real>

    constructor (clock: Clock)
      ensures this.clock == clock && !stop && sleeps == []
    {
      this.clock, stop, sleeps := clock, false, [];
    }

    /** `time.sleep`, during which the signal may come. */
    method Sleep(duration: real)
      requires duration >= 0.0
      modifies this, clock
      ensures clock.now >= old(clock.now) + duration && (old(stop) ==> stop)
      ensures sleeps == old(sleeps) + [duration]
    {
      sleeps := sleeps + [duration];
      var t := clock.Monotonic();
      clock.now := t + duration;
      var signalled: bool := *;
      stop := stop || signalled;
    }

    /** `_sleep_until`: it returns only when stopped or when the time has come, sleeping in short chunks. */
    method SleepUntil(when: real)
      modifies this, clock
      ensures stop || clock.now >= when
      ensures old(sleeps) <= sleeps
      ensures var chunks := sleeps[|old(sleeps)|..];
              && (forall i | 0 <= i < |chunks| :: 0.0 < chunks[i] <= SLEEP_CHUNK)
              && (|chunks| > 0 ==>
                    && Sum(chunks) <= when - old(clock.now)
                    && SLEEP_CHUNK * (|chunks| - 1) as real < when - old(clock.now))
      ensures old(stop) ==> sleeps == old(sleeps)
    {
      ghost var begun, chunks := clock.now, [];
      while !stop
        invariant sleeps == old(sleeps) + chunks
        invariant clock.now >= begun && forall i | 0 <= i < |chunks| :: 0.0 < chunks[i] <= SLEEP_CHUNK
        invariant Sum(chunks) <= clock.now - begun
        invariant |chunks| > 0 ==> Sum(chunks) <= when - begun && SLEEP_CHUNK * (|chunks| - 1) as real < when - begun
        invariant |chunks| > 0 ==> clock.now >= when || clock.now >= begun + SLEEP_CHUNK * |chunks| as real
        invariant old(stop) ==> stop && chunks == []
        decreases Ceil((when - begun) / SLEEP_CHUNK) + 1 - |chunks|
      {
        var t := clock.Monotonic();
        var remaining := when - t;
        if remaining <= 0.0 {
          return;
        }
        var chunk := if remaining < SLEEP_CHUNK then remaining else SLEEP_CHUNK;
        assert Sum(chunks + [chunk]) == Sum(chunks) + chunk by { assert (chunks + [chunk])[..|chunks|] == chunks; }
        chunks := chunks + [chunk];
        Sleep(chunk);
      }
    }
  }
}
