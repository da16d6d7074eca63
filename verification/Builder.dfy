/**
 * `prune_generations` as a program against a deployment in which every other process may act
 * between any two accesses, and what every part of a build needs to say about such a program.
 */
module GraphBuilder {
  import opened Common
  import opened GraphLocks
  import opened LeaseProtocol
  import opened GenerationSafety
  import opened ReaderSafety
  import opened Interference
  import opened BuildStatusFile
  import opened GraphDeployment

  /** The state after a builder moved on, or left, with this table and volume. */
  function BuilderMoved(s: State, b: nat, next: Option<Builder>, table: Table, f: Files): State {
    s.(builders := PutBuilder(s.builders, BuilderProc(b), BuilderAt(next)), table := table, files := f)
  }

  function NextBuilder(s: State, a: Action): Option<Builder>
    requires Enabled(s, a) && By(a).Some? && By(a).value.BuilderProc? && !a.BStart?
  {
    var phase := NextPhase(s, a);
    if phase.Some? then Some(s.builders[a.b].(phase := phase.value)) else None
  }

  lemma BuilderStepIsAnAction(s: State, a: Action)
    requires Enabled(s, a) && By(a).Some? && By(a).value.BuilderProc? && !a.BStart?
    ensures StepOk(s, a, BuilderMoved(s, a.b, NextBuilder(s, a), Transaction(s, a).0, FilesAfter(s, a)))
  {
  }

  lemma BuilderMoves(s: State, b: nat, next: Option<Builder>, table: Table, f: Files)
    ensures PlaceOf(BuilderMoved(s, b, next, table, f), BuilderProc(b)) == BuilderAt(next)
  {
  }

  lemma OwnRowsAfterRelease(t: Table, me: Holder, id: nat)
    ensures OwnRows(AfterRelease(t, id), me) == OwnRows(t, me) - {id}
  {
  }

  /**
   * The builder is here in its program. Since `r0` it has moved no link, in time its provider's
   * files are as expected, and it owns no rows but these.
   */
  ghost predicate At(d: Deployment, b: nat, me: Builder, r0: Run, e: Files, rows: set<nat>)
    reads d`now, d`stamp, d`links, d`staged, d`dirs, d`published, d`builders, d`workers, d`run, d.locks
  {
    && d.Valid()
    && PlaceOf(d.Abs(), BuilderProc(b)) == BuilderAt(Some(me))
    && Kept(r0, d.run, BuilderProc(b))
    && Tracks(d.run, e, d.Volume(), me.provider)
    && OwnRows(d.locks.Contents(), BuilderProc(b)) <= rows
  }

  /** The same place, looked at from this moment on. */
  lemma AtFromHere(d: Deployment, b: nat, me: Builder, r0: Run, e: Files, rows: set<nat>)
    requires At(d, b, me, r0, e, rows)
    ensures At(d, b, me, d.run, e, rows) && Kept(r0, d.run, BuilderProc(b))
  {
  }

  lemma AtWithFewerRows(d: Deployment, b: nat, me: Builder, r0: Run, e: Files, fewer: set<nat>, rows: set<nat>)
    requires At(d, b, me, r0, e, fewer) && fewer <= rows
    ensures At(d, b, me, r0, e, rows)
  {
  }

  lemma AtExtends(d: Deployment, b: nat, me: Builder, r0: Run, e: Files, rows: set<nat>)
    requires At(d, b, me, r0, e, rows)
    ensures Extends(r0, d.run) && |r0.acts| <= |d.run.acts|
  {
  }

  /** And looked at from the earlier moment again. */
  lemma AtSinceEarlier(d: Deployment, b: nat, me: Builder, r0: Run, r1: Run, e: Files, rows: set<nat>)
    requires At(d, b, me, r1, e, rows) && Kept(r0, r1, BuilderProc(b))
    ensures At(d, b, me, r0, e, rows)
    ensures RunsInTime(d.run, me.provider) ==> RunsInTime(r1, me.provider)
  {
    hide RunsInTime, OwnRows, IsRun, LinksQuiet;
    KeptTransitive(r0, r1, d.run, BuilderProc(b));
    if RunsInTime(d.run, me.provider) { InTimeBefore(r1, d.run, me.provider); }
  }

  /** The others act. */
  method Interfere(d: Deployment, b: nat, ghost me: Builder, ghost r0: Run, ghost e: Files, ghost rows: set<nat>)
    requires At(d, b, me, r0, e, rows)
    modifies d`now, d`stamp, d`monotonic, d`links, d`staged, d`dirs, d`published, d`builders, d`workers, d`run, d.locks
    ensures At(d, b, me, r0, e, rows) && Extends(old(d.run), d.run)
    ensures d.monotonic >= old(d.monotonic)
  {
    hide IsRun, StepOk, Apply, Enabled, OwnRows, Untouched, RunsInTime, OnlyOthers, SameFor, Kept, Tracks, Extends;
    ghost var r1, f1 := d.run, d.Volume();
    d.Others(BuilderProc(b));
    UntouchedExtends(r1, f1, d.run, d.Volume(), BuilderProc(b), Some(me.provider));
    UntouchedIsKept(r1, f1, d.run, d.Volume(), BuilderProc(b), Some(me.provider));
    KeptTransitive(r0, r1, d.run, BuilderProc(b));
    TracksThroughOthers(r0, r1, e, f1, d.run, d.Volume(), BuilderProc(b), me.provider);
  }

  /** Notes the builder's own action, after its change of the volume, and releases what it releases. */
  method Commit(d: Deployment, a: Action, b: nat, ghost s: State, ghost me: Builder, next: Option<Builder>,
                release: Option<nat>,
                ghost e: Files, ghost e': Files, ghost rows: set<nat>)
    requires IsRun(d.run) && |d.run.states| == |d.run.acts| + 1 && d.run.states[|d.run.acts|] == s
    requires d.Abs() == s.(files := d.Volume())
    requires var table := if release.Some? then AfterRelease(s.table, release.value) else s.table;
             StepOk(s, a, BuilderMoved(s, b, next, table, d.Volume()))
    requires Tracks(d.run, e, s.files, me.provider) && OwnRows(s.table, BuilderProc(b)) <= rows
    requires SameFor(e, s.files, me.provider) ==> SameFor(e', d.Volume(), me.provider)
    requires next.Some? ==> next.value.provider == me.provider
    modifies d`builders, d`run, d.locks
    ensures d.Valid() && d.Volume() == old(d.Volume())
    ensures Extends(old(d.run), d.run) && |d.run.acts| == |old(d.run).acts| + 1
    ensures d.run.acts[|old(d.run).acts|] == a && d.run.states[|d.run.acts|].files == d.Volume()
    ensures next.Some? ==> At(d, b, next.value, d.run, e', if release.Some? then rows - {release.value} else rows)
    ensures next.None? ==> && b !in d.builders && Tracks(d.run, e', d.Volume(), me.provider)
                           && OwnRows(d.locks.Contents(), BuilderProc(b))
                              <= if release.Some? then rows - {release.value} else rows
  {
    hide IsRun, StepOk, Apply, Enabled, OwnRows, RunsInTime, SameFor, Tracks;
    ghost var r1 := d.run;
    BuilderMoves(s, b, next, if release.Some? then AfterRelease(s.table, release.value) else s.table, d.Volume());
    if release.Some? {
      OwnRowsAfterRelease(s.table, BuilderProc(b), release.value);
      d.locks.Release(release.value);
    }
    d.builders := PutBuilder(d.builders, BuilderProc(b), BuilderAt(next));
    d.Record(a);
    TracksThroughOwn(r1, e, s.files, d.run, e', d.Volume(), me.provider);
  }

  /** The same for an action that moves no link. */
  method CommitInPlace(d: Deployment, a: Action, b: nat, ghost s: State, ghost me: Builder, next: Option<Builder>,
                       release: Option<nat>,
                ghost r0: Run, ghost e: Files, ghost e': Files, ghost rows: set<nat>)
    requires IsRun(d.run) && |d.run.states| == |d.run.acts| + 1 && d.run.states[|d.run.acts|] == s
    requires d.Abs() == s.(files := d.Volume())
    requires var table := if release.Some? then AfterRelease(s.table, release.value) else s.table;
             StepOk(s, a, BuilderMoved(s, b, next, table, d.Volume()))
    requires Kept(r0, d.run, BuilderProc(b)) && Tracks(d.run, e, s.files, me.provider)
    requires OwnRows(s.table, BuilderProc(b)) <= rows
    requires d.Volume().links == s.files.links
    requires SameFor(e, s.files, me.provider) ==> SameFor(e', d.Volume(), me.provider)
    requires next.Some? ==> next.value.provider == me.provider
    modifies d`builders, d`run, d.locks
    ensures d.Valid() && d.Volume() == old(d.Volume())
    ensures Extends(old(d.run), d.run) && |d.run.acts| == |old(d.run).acts| + 1 && d.run.acts[|old(d.run).acts|] == a
    ensures next.Some? ==> At(d, b, next.value, r0, e', if release.Some? then rows - {release.value} else rows)
    ensures next.None? ==>
              && b !in d.builders && Kept(r0, d.run, BuilderProc(b)) && Tracks(d.run, e', d.Volume(), me.provider)
              && OwnRows(d.locks.Contents(), BuilderProc(b))
                 <= if release.Some? then rows - {release.value} else rows
  {
    hide IsRun, StepOk, Apply, Enabled, OwnRows, RunsInTime, SameFor, Kept, Tracks, BuilderMoved;
    ghost var r1 := d.run;
    Commit(d, a, b, s, me, next, release, e, e', rows);
    KeptByOwnStep(r1, d.run, BuilderProc(b));
    KeptTransitive(r0, r1, d.run, BuilderProc(b));
    if next.Some? {
      AtSinceEarlier(d, b, next.value, r0, d.run, e', if release.Some? then rows - {release.value} else rows);
    }
  }

  // ----- prune_generations -----

  /** The volume without these generations. */
  ghost function AllRemoved(f: Files, gens: seq<Gen>): Files {
    if |gens| == 0 then f else Removed(AllRemoved(f, gens[..|gens| - 1]), gens[|gens| - 1])
  }

  lemma {:induction false} AllRemovedDirs(f: Files, gens: seq<Gen>)
    ensures AllRemoved(f, gens).links == f.links
    ensures forall g :: g in AllRemoved(f, gens).dirs <==> g in f.dirs && g !in gens
    ensures forall g | g in f.dirs && g !in gens :: AllRemoved(f, gens).dirs[g] == f.dirs[g]
  {
    if |gens| > 0 {
      AllRemovedDirs(f, gens[..|gens| - 1]);
      assert forall g :: g in gens <==> g in gens[..|gens| - 1] || g == gens[|gens| - 1];
    }
  }

  lemma {:induction false} NewestExists(gens: set<Gen>)
    requires gens != {}
    ensures exists g | g in gens :: forall h | h in gens :: h.stamp <= g.stamp
    decreases |gens|
  {
    var g :| g in gens;
    if h :| h in gens && h.stamp > g.stamp {
      var rest := gens - {g};
      NewestExists(rest);
      var m :| m in rest && forall h | h in rest :: h.stamp <= m.stamp;
      assert forall h | h in gens :: h == g || h in rest;
    }
  }

  lemma NewestAppended(s: seq<Gen>, g: Gen)
    requires NewestFirst(s) && forall i | 0 <= i < |s| :: s[i].stamp > g.stamp
    ensures NewestFirst(s + [g]) && (set h | h in s + [g]) == (set h | h in s) + {g}
  {
  }

  /** `sorted(..., reverse=True)` of one provider's directories. */
  method SortedNewestFirst(gens: set<Gen>, p: Provider) returns (s: seq<Gen>)
    requires forall g | g in gens :: g.provider == p
    ensures IsListing(s, gens)
  {
    hide NewestFirst;
    NoneIsSorted();
    s := [];
    var left := gens;
    while left != {}
      invariant left <= gens && NewestFirst(s) && (set g | g in s) == gens - left
      invariant forall i, h | 0 <= i < |s| && h in left :: s[i].stamp > h.stamp
      decreases |left|
    {
      NewestExists(left);
      var g :| g in left && forall h | h in left :: h.stamp <= g.stamp;
      assert forall h | h in left && h.stamp == g.stamp :: h == g;
      NewestAppended(s, g);
      s := s + [g];
      left := left - {g};
    }
  }

  lemma NoneIsSorted()
    ensures NewestFirst([])
  {
  }

  /** `rmtree` and the release of the generation's lease, once it is granted. */
  method RemoveGeneration(d: Deployment, b: nat, me: Builder, job: PruneJob, excl: Lease,
                          ghost r0: Run, ghost e: Files, ghost rows: set<nat>)
    requires me.phase == Remove(job, excl) && job.todo != [] && job.todo[0].provider == me.provider
    requires At(d, b, me, r0, e, rows)
    modifies d`now, d`stamp, d`monotonic, d`links, d`staged, d`dirs, d`published, d`builders, d`workers, d`run, d.locks
    ensures At(d, b, me.(phase := Prune(job.(todo := job.todo[1..]))), r0, Removed(e, job.todo[0]), rows - {excl.id})
    ensures d.monotonic >= old(d.monotonic)
  {
    hide IsRun, StepOk, Apply, OwnRows, Untouched, RunsInTime, OnlyOthers, SameFor, Kept, Tracks, Extends, Torn,
         Removed;
    var g := job.todo[0];
    ghost var e1, s := e, d.Abs();
    var n: nat := *;
    while n > 0
      invariant At(d, b, me, r0, e1, rows) && Removed(e1, g) == Removed(e, g) && d.monotonic >= old(d.monotonic)
    {
      Interfere(d, b, me, r0, e1, rows);
      var tiles: map<string, nat> := *;
      Tear(d, b, me, job, excl, tiles, r0, e1, rows);
      TornThenRemoved(e1, g, tiles);
      e1 := Torn(e1, g, tiles);
      n := n - 1;
    }
    Interfere(d, b, me, r0, e1, rows);
    Vanish(d, b, me, job, excl, r0, e1, rows);
    var unlocking := me.(phase := Unlock(job, excl));
    Interfere(d, b, unlocking, r0, Removed(e, g), rows);
    s := d.Abs();
    BuilderStepIsAnAction(s, BUnlock(b));
    CommitInPlace(d, BUnlock(b), b, s, unlocking, Some(me.(phase := Prune(job.(todo := job.todo[1..])))), Some(excl.id),
           r0, Removed(e, g), Removed(e, g), rows);
  }

  /** Some of the files are deleted. */
  method Tear(d: Deployment, b: nat, me: Builder, job: PruneJob, excl: Lease, tiles: map<string, nat>,
              ghost r0: Run, ghost e: Files, ghost rows: set<nat>)
    requires me.phase == Remove(job, excl) && job.todo != [] && job.todo[0].provider == me.provider
    requires At(d, b, me, r0, e, rows)
    modifies d`dirs, d`builders, d`run, d.locks
    ensures At(d, b, me, r0, Torn(e, job.todo[0], tiles), rows)
  {
    hide IsRun, StepOk, Apply, OwnRows, RunsInTime, SameFor, Kept, Tracks, Extends;
    ghost var s := d.Abs();
    BuilderStepIsAnAction(s, BTear(b, tiles));
    var g := job.todo[0];
    if g in d.dirs {
      d.dirs := d.dirs[g := d.dirs[g].(torn := true, tiles := tiles)];
    }
    if SameFor(e, s.files, me.provider) { TornAlike(e, s.files, me.provider, g, tiles); }
    CommitInPlace(d, BTear(b, tiles), b, s, me, Some(me), None, r0, e, Torn(e, g, tiles), rows);
  }

  /** The directory is gone. */
  method Vanish(d: Deployment, b: nat, me: Builder, job: PruneJob, excl: Lease,
                ghost r0: Run, ghost e: Files, ghost rows: set<nat>)
    requires me.phase == Remove(job, excl) && job.todo != []
    requires At(d, b, me, r0, e, rows)
    modifies d`dirs, d`builders, d`run, d.locks
    ensures At(d, b, me.(phase := Unlock(job, excl)), r0, Removed(e, job.todo[0]), rows)
  {
    hide IsRun, StepOk, Apply, OwnRows, RunsInTime, SameFor, Kept, Tracks, Extends;
    ghost var s := d.Abs();
    BuilderStepIsAnAction(s, BGone(b));
    var g := job.todo[0];
    d.dirs := Without(d.dirs, g);
    if SameFor(e, s.files, me.provider) { RemovedAlike(e, s.files, me.provider, g); }
    CommitInPlace(d, BGone(b), b, s, me, Some(me.(phase := Unlock(job, excl))), None, r0, e, Removed(e, g), rows);
  }

  /** Why a build gave up. */
  datatype BuildFailure =
    | GenerationHeld(gen: Gen) | PbfFailed | NameTaken(gen: Gen) | StageFailed(stage: Stage) | MetaFailed | SwapFailed
    | EnqueueFailed

  /** `link.resolve()`, if there is a link. */
  method LookAtLink(d: Deployment, b: nat, me: Builder, ghost r0: Run, ghost e: Files, ghost rows: set<nat>)
    returns (current: Option<Gen>)
    requires me.phase == Look && At(d, b, me, r0, e, rows)
    modifies d`now, d`stamp, d`monotonic, d`links, d`staged, d`dirs, d`published, d`builders, d`workers, d`run, d.locks
    ensures At(d, b, me.(phase := List(current)), r0, e, rows)
    ensures RunsInTime(d.run, me.provider) ==> current == LinkOf(e, me.provider)
    ensures d.monotonic >= old(d.monotonic)
  {
    hide IsRun, StepOk, Apply, OwnRows, Untouched, OnlyOthers, SameFor, Kept, RunsInTime, Extends;
    Interfere(d, b, me, r0, e, rows);
    current := if me.provider in d.links then Some(d.links[me.provider]) else None;
    ghost var s, r1 := d.Abs(), d.run;
    BuilderStepIsAnAction(s, BLook(b));
    CommitInPlace(d, BLook(b), b, s, me, Some(me.(phase := List(current))), None, r0, e, e, rows);
    if RunsInTime(d.run, me.provider) {
      InTimeBefore(r1, d.run, me.provider);
      OthersAlike(e, s.files, me.provider);
    }
  }

  /** The listing of the directories that are not current, newest first, and what is to be removed of it. */
  method ListOthers(d: Deployment, b: nat, me: Builder, current: Option<Gen>, ghost r0: Run, ghost e: Files,
                    ghost rows: set<nat>)
    returns (others: seq<Gen>)
    requires me.phase == List(current) && At(d, b, me, r0, e, rows)
    requires RunsInTime(d.run, me.provider) ==> current == LinkOf(e, me.provider)
    modifies d`now, d`stamp, d`monotonic, d`links, d`staged, d`dirs, d`published, d`builders, d`workers, d`run, d.locks
    ensures At(d, b, me.(phase := Prune(PlanPrune(d.cfg, current, others))), r0, e, rows)
    ensures NewestFirst(others) && forall g | g in others :: g.provider == me.provider
    ensures RunsInTime(d.run, me.provider) ==>
              current == LinkOf(e, me.provider) && IsListing(others, Stale(e, me.provider))
    ensures d.monotonic >= old(d.monotonic)
  {
    hide IsRun, StepOk, Apply, OwnRows, Untouched, OnlyOthers, SameFor, Kept, RunsInTime, Extends, PlanPrune,
         NewestFirst;
    ghost var r1 := d.run;
    Interfere(d, b, me, r0, e, rows);
    ghost var r2 := d.run;
    others := SortedNewestFirst(Others(d.dirs, me.provider, current), me.provider);
    ghost var s := d.Abs();
    BuilderStepIsAnAction(s, BList(b, others));
    CommitInPlace(d, BList(b, others), b, s, me, Some(me.(phase := Prune(PlanPrune(d.cfg, current, others)))), None, r0,
                  e, e, rows);
    forall g | g in others ensures g.provider == me.provider {
      assert g in set h | h in others;
    }
    if RunsInTime(d.run, me.provider) {
      InTimeBefore(r2, d.run, me.provider);
      InTimeBefore(r1, r2, me.provider);
      OthersAlike(e, s.files, me.provider);
    }
  }

  /** Since `r0` the builder was kept out of the generation by somebody who holds it, and did nothing but ask for it. */
  ghost predicate GaveUpWaiting(r0: Run, r: Run, b: nat, g: Gen) {
    exists from, until :: |r0.acts| <= from && KeptOut(r, from, until, BuilderProc(b), GenerationDir(g), Exclusive)
  }

  lemma GaveUpNow(r0: Run, r1: Run, r: Run, b: nat, g: Gen)
    requires KeptOut(r, |r1.acts|, |r.acts|, BuilderProc(b), GenerationDir(g), Exclusive) && |r0.acts| <= |r1.acts|
    ensures GaveUpWaiting(r0, r, b, g)
  {
  }

  lemma GaveUpEarlier(r0: Run, r1: Run, r2: Run, r: Run, b: nat, g: Gen)
    requires GaveUpWaiting(r1, r2, b, g) && |r0.acts| <= |r1.acts| && Extends(r2, r)
    ensures GaveUpWaiting(r0, r, b, g)
  {
    hide KeptOut;
    var from, until :| |r1.acts| <= from && KeptOut(r2, from, until, BuilderProc(b), GenerationDir(g), Exclusive);
    StaysKeptOut(r2, r, from, until, BuilderProc(b), GenerationDir(g), Exclusive);
  }

  /** Kept out by two attempts in a row. */
  lemma KeptOutTwice(r0: Run, r1: Run, r: Run, b: nat, g: Gen)
    requires KeptOut(r1, |r0.acts|, |r1.acts|, BuilderProc(b), GenerationDir(g), Exclusive) && Extends(r1, r)
    requires KeptOut(r, |r1.acts|, |r.acts|, BuilderProc(b), GenerationDir(g), Exclusive)
    ensures KeptOut(r, |r0.acts|, |r.acts|, BuilderProc(b), GenerationDir(g), Exclusive)
  {
    StaysKeptOut(r1, r, |r0.acts|, |r1.acts|, BuilderProc(b), GenerationDir(g), Exclusive);
    hide Refused;
  }

  lemma KeptIsLonger(r: Run, r': Run, me: Holder)
    requires Kept(r, r', me)
    ensures Extends(r, r') && |r.acts| <= |r'.acts|
  {
  }

  /** `lock_exclusive` on the next generation to remove. */
  method LeaseNext(d: Deployment, b: nat, me: Builder, job: PruneJob, timeout: real, gives: bool,
                   ghost r0: Run, ghost e: Files, ghost rows: set<nat>)
    returns (lease: Option<Lease>)
    requires me.phase == Prune(job) && job.todo != [] && At(d, b, me, r0, e, rows)
    modifies d`now, d`stamp, d`monotonic, d`naps, d`links, d`staged, d`dirs, d`published, d`builders, d`workers,
             d`run, d.locks
    ensures Extends(old(d.run), d.run)
    ensures lease.Some? ==> At(d, b, me.(phase := Remove(job, lease.value)), r0, e, rows + {lease.value.id})
    ensures lease.None? ==> At(d, b, if gives then me.(phase := Leave) else me, r0, e, rows)
    // Without the lease the timeout has passed, and every time it asked somebody held the generation.
    ensures lease.None? ==>
              && KeptOut(d.run, |old(d.run).acts|, |d.run.acts|, BuilderProc(b), GenerationDir(job.todo[0]), Exclusive)
              && d.monotonic >= old(d.monotonic) + timeout
    ensures d.monotonic >= old(d.monotonic) && |r0.acts| <= |old(d.run).acts|
    ensures Slept(old(d.naps)) <= Slept(d.naps) <= Slept(old(d.naps)) + Patience(timeout)
    ensures Polls(d.run, |old(d.run).acts|, old(d.naps), d.naps, BuilderProc(b))
  {
    hide Polls, Slept, KeptOut, Refused, IsRun, StepOk, Apply, OwnRows, Untouched, OnlyOthers, SameFor, Kept,
         RunsInTime, Extends, Tracks;
    ghost var r1, f1 := d.run, d.Volume();
    KeptIsLonger(r0, r1, BuilderProc(b));
    lease := d.Acquire(ForPrune(b), timeout, gives);
    UntouchedExtends(r1, f1, d.run, d.Volume(), BuilderProc(b), Some(me.provider));
    UntouchedIsKept(r1, f1, d.run, d.Volume(), BuilderProc(b), Some(me.provider));
    KeptTransitive(r0, r1, d.run, BuilderProc(b));
    KeptIsLonger(r0, r1, BuilderProc(b));
    TracksThroughOthers(r0, r1, e, f1, d.run, d.Volume(), BuilderProc(b), me.provider);
  }

  lemma InRetained(gens: seq<Gen>, n: nat, i: nat)
    requires NewestFirst(gens) && n <= |gens| && i < |gens|
    ensures gens[i] in (set g | g in gens[..n]) <==> i < n
    ensures i < n ==> Max(i, n) == Max(i + 1, n)
  {
    if i < n {
      assert gens[..n][i] == gens[i];
    }
  }

  /** Nothing is left to remove. */
  method FinishPruning(d: Deployment, b: nat, me: Builder, job: PruneJob, ghost r0: Run, ghost e: Files,
                       ghost rows: set<nat>)
    requires me.phase == Prune(job) && job.todo == [] && At(d, b, me, r0, e, rows)
    modifies d`builders, d`run, d.locks
    ensures At(d, b, me.(phase := Fetch), r0, e, rows) && Extends(old(d.run), d.run)
  {
    hide IsRun, StepOk, Apply, OwnRows, RunsInTime, SameFor, Kept, Tracks, Extends;
    ghost var s := d.Abs();
    BuilderStepIsAnAction(s, BPruned(b));
    CommitInPlace(d, BPruned(b), b, s, me, Some(me.(phase := Fetch)), None, r0, e, e, rows);
  }

  /** One round of `prune_generations`: one attempt at the lease, then a patient one, then the removal. */
  method RemoveNext(d: Deployment, b: nat, me: Builder, job: PruneJob, timeout: real, ghost r0: Run, ghost e: Files,
                    ghost rows: set<nat>)
    returns (removed: bool)
    requires me.phase == Prune(job) && job.todo != [] && job.todo[0].provider == me.provider
    requires At(d, b, me, r0, e, rows)
    modifies d`now, d`stamp, d`monotonic, d`naps, d`links, d`staged, d`dirs, d`published, d`builders, d`workers,
             d`run, d.locks
    ensures removed ==> At(d, b, me.(phase := Prune(job.(todo := job.todo[1..]))), r0, Removed(e, job.todo[0]), rows)
    ensures !removed ==> At(d, b, me.(phase := Leave), r0, e, rows)
    ensures !removed ==>
              && KeptOut(d.run, |old(d.run).acts|, |d.run.acts|, BuilderProc(b), GenerationDir(job.todo[0]), Exclusive)
              && d.monotonic >= old(d.monotonic) + timeout
    ensures d.monotonic >= old(d.monotonic) && |r0.acts| <= |old(d.run).acts|
    ensures Slept(old(d.naps)) <= Slept(d.naps) <= Slept(old(d.naps)) + Patience(timeout)
    ensures Polls(d.run, |old(d.run).acts|, old(d.naps), d.naps, BuilderProc(b)) && Extends(old(d.run), d.run)
  {
    NoPatience(timeout);
    hide *;
    ghost var r1 := d.run;
    var lease := LeaseNext(d, b, me, job, 0.0, false, r0, e, rows);
    if lease.None? {
      ghost var r2, naps := d.run, d.naps;
      lease := LeaseNext(d, b, me, job, timeout, true, r0, e, rows);
      LongerRun(r1, r2);
      PollsBoth(r2, d.run, |r1.acts|, |r2.acts|, old(d.naps), naps, d.naps, BuilderProc(b));
      ExtendsTransitive(r1, r2, d.run);
      if lease.None? {
        KeptOutTwice(r1, r2, d.run, b, job.todo[0]);
        return false;
      }
    }
    ghost var r3 := d.run;
    var removing, done := me.(phase := Remove(job, lease.value)), me.(phase := Prune(job.(todo := job.todo[1..])));
    AtFromHere(d, b, removing, r0, e, rows + {lease.value.id});
    RemoveGeneration(d, b, removing, job, lease.value, r3, e, rows + {lease.value.id});
    AtExtends(d, b, done, r3, Removed(e, job.todo[0]), rows + {lease.value.id} - {lease.value.id});
    AtSinceEarlier(d, b, done, r0, r3, Removed(e, job.todo[0]), rows + {lease.value.id} - {lease.value.id});
    ExtendsTransitive(r1, r3, d.run);
    PollsStay(r3, d.run, |r1.acts|, old(d.naps), d.naps, BuilderProc(b));
    AtWithFewerRows(d, b, me.(phase := Prune(job.(todo := job.todo[1..]))), r0, Removed(e, job.todo[0]),
                    rows + {lease.value.id} - {lease.value.id}, rows);
    return true;
  }

  lemma NoneRemoved(f: Files)
    ensures AllRemoved(f, []) == f
  {
  }

  lemma OneMoreRemoved(f: Files, gens: seq<Gen>, g: Gen)
    ensures AllRemoved(f, gens + [g]) == Removed(AllRemoved(f, gens), g)
  {
    assert (gens + [g])[..|gens|] == gens;
  }

  lemma NextInLine(gens: seq<Gen>, n: nat, i: nat)
    requires n <= i < |gens|
    ensures Max(i, n) == i && Max(i + 1, n) == i + 1
    ensures gens[n..i] + [gens[i]] == gens[n..i + 1] && |gens[n..i]| == i - n && gens[n..i] < gens[n..]
    ensures gens[i..][0] == gens[i] && gens[i..][1..] == gens[i + 1..]
  {
  }

  lemma PlanCuts(cfg: Settings, current: Option<Gen>, others: seq<Gen>, timeout: real)
    ensures Retaining(cfg, others) <= |others| && PatienceFor(0, timeout) == 0.0
    ensures var n := Retaining(cfg, others);
            && Max(0, n) == n && others[n..n] == []
            && Max(|others|, n) == |others| && others[n..|others|] == others[n..] && others[|others|..] == []
    ensures PlanPrune(cfg, current, others)
            == PruneJob(current, (set g | g in others[..Retaining(cfg, others)]), others[Retaining(cfg, others)..])
  {
  }

  /** The loop of `prune_generations` over the listing. */
  method PruneListed(d: Deployment, b: nat, me: Builder, current: Option<Gen>, others: seq<Gen>, timeout: real,
                     ghost r0: Run, ghost e: Files, ghost rows: set<nat>)
    returns (r: Result<seq<Gen>, BuildFailure>, ghost removed: seq<Gen>)
    requires me.phase == Prune(PlanPrune(d.cfg, current, others)) && At(d, b, me, r0, e, rows)
    requires NewestFirst(others) && forall g | g in others :: g.provider == me.provider
    modifies d`now, d`stamp, d`monotonic, d`naps, d`links, d`staged, d`dirs, d`published, d`builders, d`workers,
             d`run, d.locks
    ensures r.Ok? ==> r.value == removed == others[Retaining(d.cfg, others)..]
                      && At(d, b, me.(phase := Fetch), r0, AllRemoved(e, removed), rows)
    ensures r.Raised? ==> removed < others[Retaining(d.cfg, others)..]
                          && r.error == GenerationHeld(others[Retaining(d.cfg, others) + |removed|])
                          && GaveUpWaiting(r0, d.run, b, r.error.gen) && d.monotonic >= old(d.monotonic) + timeout
                          && At(d, b, me.(phase := Leave), r0, AllRemoved(e, removed), rows)
    ensures Slept(old(d.naps)) <= Slept(d.naps)
            <= Slept(old(d.naps)) + PatienceFor(|others| - Retaining(d.cfg, others), timeout)
    ensures Polls(d.run, |r0.acts|, old(d.naps), d.naps, BuilderProc(b))
  {
    hide Polls, Slept, Extends, At, NewestFirst, AllRemoved, Removed, GaveUpWaiting, KeptOut, Patience, PatienceFor,
         Retaining, PlanPrune, Max;
    AtExtends(d, b, me, r0, e, rows);
    NoNaps(d.run, |r0.acts|, d.naps, BuilderProc(b));
    PlanCuts(d.cfg, current, others, timeout);
    var n := Retaining(d.cfg, others);
    NoneRemoved(e);
    var retained := set g | g in others[..n];
    var pruned := [];
    var i := 0;
    while i < |others|
      invariant 0 <= i <= |others| && n <= Max(i, n) <= |others|
      invariant pruned == others[n..Max(i, n)] && d.monotonic >= old(d.monotonic)
      invariant Slept(old(d.naps)) <= Slept(d.naps) <= Slept(old(d.naps)) + PatienceFor(|pruned|, timeout)
      invariant Polls(d.run, |r0.acts|, old(d.naps), d.naps, BuilderProc(b))
      invariant At(d, b, me.(phase := Prune(PruneJob(current, retained, others[Max(i, n)..]))), r0,
                   AllRemoved(e, pruned), rows)
    {
      var generation := others[i];
      InRetained(others, n, i);
      if generation in retained {
        i := i + 1;
        continue;
      }
      NextInLine(others, n, i);
      var job := PruneJob(current, retained, others[i..]);
      ghost var r1, naps := d.run, d.naps;
      var ok := RemoveNext(d, b, me.(phase := Prune(job)), job, timeout, r0, AllRemoved(e, pruned), rows);
      PollsBoth(r1, d.run, |r0.acts|, |r1.acts|, old(d.naps), naps, d.naps, BuilderProc(b));
      OneMorePatience(|pruned|, |others| - n, timeout);
      if !ok {
        GaveUpNow(r0, r1, d.run, b, generation);
        removed := pruned;
        return Raised(GenerationHeld(generation)), removed;
      }
      OneMoreRemoved(e, pruned, generation);
      pruned := pruned + [generation];
      i := i + 1;
    }
    removed := pruned;
    ghost var r2 := d.run;
    var last := me.(phase := Prune(PruneJob(current, retained, [])));
    FinishPruning(d, b, last, PruneJob(current, retained, []), r0, AllRemoved(e, pruned), rows);
    PollsStay(r2, d.run, |r0.acts|, old(d.naps), d.naps, BuilderProc(b));
    r := Ok(pruned);
  }

  /** In time the plan has one generation to remove at most. */
  lemma OneToRemove(d: Deployment, b: nat, me: Builder, current: Option<Gen>, others: seq<Gen>, timeout: real,
                    r0: Run, e: Files, rows: set<nat>)
    requires me.phase == Prune(PlanPrune(d.cfg, current, others)) && At(d, b, me, r0, e, rows)
    requires RunsInTime(d.run, me.provider)
    ensures |others| - Retaining(d.cfg, others) <= 1
    ensures PatienceFor(|others| - Retaining(d.cfg, others), timeout) <= Patience(timeout)
  {
    hide IsRun, RunsInTime;
    PruneWaitsForOneAtMost(d.run, |d.run.acts|, b);
  }

  /**
   * `prune_generations`: what is neither current nor retained is removed, newest first, each
   * under its own exclusive lease. The first lease that is not granted in time aborts it.
   */
  method PruneGenerations(d: Deployment, b: nat, me: Builder, timeout: real, ghost r0: Run, ghost e: Files,
                          ghost rows: set<nat>)
    returns (r: Result<seq<Gen>, BuildFailure>, ghost others: seq<Gen>, ghost removed: seq<Gen>)
    requires me.phase == Look && At(d, b, me, r0, e, rows)
    modifies d`now, d`stamp, d`monotonic, d`naps, d`links, d`staged, d`dirs, d`published, d`builders, d`workers,
             d`run, d`statusCalls, d.locks
    ensures d.statusCalls == old(d.statusCalls) + [StageCall(Pruning)]
    // What was listed is, in time, exactly what was there and not current.
    ensures RunsInTime(d.run, me.provider) ==> IsListing(others, Stale(e, me.provider))
    // All but the newest ones are removed; the result lists them newest first.
    ensures r.Ok? ==> r.value == removed == others[Retaining(d.cfg, others)..]
                      && At(d, b, me.(phase := Fetch), r0, AllRemoved(e, removed), rows)
    // An abort leaves the rest in place.
    ensures r.Raised? ==> removed < others[Retaining(d.cfg, others)..]
                          && r.error == GenerationHeld(others[Retaining(d.cfg, others) + |removed|])
                          && At(d, b, me.(phase := Leave), r0, AllRemoved(e, removed), rows)
    // It comes only after a timeout in which somebody held the next one each time it was asked for.
    ensures r.Raised? ==> GaveUpWaiting(r0, d.run, b, r.error.gen) && d.monotonic >= old(d.monotonic) + timeout
    // In time all the waiting together takes no longer than one timeout, however many are kept.
    ensures RunsInTime(d.run, me.provider) ==> Slept(d.naps) <= Slept(old(d.naps)) + Patience(timeout)
    ensures Polls(d.run, |r0.acts|, old(d.naps), d.naps, BuilderProc(b))
  {
    hide Polls, Slept, IsRun, StepOk, Apply, Enabled, OwnRows, Untouched, OnlyOthers, SameFor, Kept, RunsInTime,
         Extends, Tracks, At, NewestFirst, IsListing, Stale, AllRemoved, Retaining, PlanPrune, Patience, PatienceFor;
    d.statusCalls := d.statusCalls + [StageCall(Pruning)];
    var current := LookAtLink(d, b, me, r0, e, rows);
    var listed := ListOthers(d, b, me.(phase := List(current)), current, r0, e, rows);
    others := listed;
    ghost var r1 := d.run;
    var pruning := me.(phase := Prune(PlanPrune(d.cfg, current, listed)));
    AtFromHere(d, b, pruning, r0, e, rows);
    KeptIsLonger(r0, r1, BuilderProc(b));
    if RunsInTime(r1, me.provider) { OneToRemove(d, b, pruning, current, listed, timeout, r0, e, rows); }
    r, removed := PruneListed(d, b, pruning, current, listed, timeout, r1, e, rows);
    PollsFromEarlier(d.run, |r0.acts|, |r1.acts|, old(d.naps), d.naps, BuilderProc(b));
    AtSinceEarlier(d, b, me.(phase := if r.Ok? then Fetch else Leave), r0, r1, AllRemoved(e, removed), rows);
  }

  /** A listing cut in two: the newer ones, and the older ones. */
  lemma CutListing(gens: seq<Gen>, all: set<Gen>, n: nat)
    requires IsListing(gens, all) && n <= |gens|
    ensures NewestFirst(gens[n..]) && |all| == |gens|
    ensures var newer, older := set g | g in gens[..n], set g | g in gens[n..];
            && all - older == newer && |newer| == n
            && (forall g, h | g in newer && h in older :: g.stamp > h.stamp)
  {
    assert NewestFirst(gens[..n]);
    ListingLength(gens);
    ListingLength(gens[..n]);
    assert forall i | 0 <= i < |gens| :: gens[i] in all;
    assert gens == gens[..n] + gens[n..];
  }

  lemma StaleAfterRemoval(f: Files, p: Provider, removed: seq<Gen>)
    ensures Stale(AllRemoved(f, removed), p) == Stale(f, p) - (set g | g in removed)
    ensures LinkOf(AllRemoved(f, removed), p) == LinkOf(f, p)
  {
    AllRemovedDirs(f, removed);
  }

  /**
   * What `prune_generations` comes to: it removes exactly the directories that are neither current
   * nor among the newest KEEP_GENERATIONS - 1 others, each once.
   */
  lemma PruneKeepsTheNewest(cfg: Settings, f: Files, p: Provider, others: seq<Gen>)
    requires cfg.keep >= 1 && IsListing(others, Stale(f, p))
    ensures var n := Retaining(cfg, others);
            var removed, f' := others[n..], AllRemoved(f, others[n..]);
            && NewestFirst(removed)
            && Stale(f', p) == (set g | g in others[..n]) && |Stale(f', p)| == Min(cfg.keep - 1, |Stale(f, p)|)
            && (forall kept, gone | kept in Stale(f', p) && gone in removed :: kept.stamp > gone.stamp)
            && LinkOf(f', p) == LinkOf(f, p)
            && (p in f.links ==> f.links[p] !in removed)
  {
    var n := Retaining(cfg, others);
    CutListing(others, Stale(f, p), n);
    StaleAfterRemoval(f, p, others[n..]);
    assert p in f.links ==> f.links[p] !in Stale(f, p);
    assert forall g | g in others[n..] :: g in set h | h in others;
    hide NewestFirst, Stale, AllRemoved;
  }
}
