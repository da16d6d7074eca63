/**
 * The promises of the protocol, for every run: any number of builders and workers, any
 * interleaving, lease expiry, and crashes after every single step.
 */
module ReaderSafety {
  import opened Common
  import opened GraphLocks
  import opened LeaseProtocol
  import opened LeaseOwnership
  import opened GenerationSafety

  /**
   * A worker that passed the re-check and whose lease has not expired reads a finished generation
   * exactly as it was published, and no removal of it is under way, even if the exclusive lease of
   * some pruner has expired in the middle of one.
   */
  lemma ReadersReadFinishedGenerations(r: Run, i: nat, w: nat)
    requires IsRun(r) && i < |r.states| && w in r.states[i].workers && RunsInTime(r, r.states[i].workers[w].provider)
    requires r.states[i].workers[w].spot.Read? && Live(r.states[i], r.states[i].workers[w].spot.lease)
    ensures var s := r.states[i];
            var g := s.workers[w].spot.gen;
            && g.provider == s.workers[w].provider
            && g in s.files.dirs && Whole(s.cfg, s.files.dirs[g]) && AsPublished(s.files, g) && NobodyRemoves(s, g)
  {
    var s := r.states[i];
    EveryRunKeepsFiles(r, i, s.workers[w].provider);
    assert OwnSpot(s.workers[w].provider, s.workers[w].spot);
    assert ReaderOk(s, s.workers[w]);
  }

  /**
   * The link is unset or names a generation that is there, finished before the link was moved to
   * it, and not written to since.
   */
  lemma LinkNeverDangles(r: Run, i: nat, p: Provider)
    requires IsRun(r) && RunsInTime(r, p) && i < |r.states| && p in r.states[i].files.links
    ensures var s := r.states[i];
            var g := s.files.links[p];
            && Resolved(s.files, p) == Some(g) && g.provider == p
            && Whole(s.cfg, s.files.dirs[g]) && AsPublished(s.files, g) && NobodyRemoves(s, g)
            && (forall b | b in s.builders && s.builders[b].phase.Build? :: s.builders[b].phase.gen != g)
  {
    EveryRunKeepsFiles(r, i, p);
    var s := r.states[i];
    NobodyRemovesCurrent(s, p);
    forall b | b in s.builders && s.builders[b].phase.Build? ensures s.builders[b].phase.gen != s.files.links[p] {
      assert OwnPhase(s.builders[b].provider, s.builders[b].phase);
      if s.builders[b].provider == p { assert PhaseOk(s.cfg, s.files, s.stamp, p, s.builders[b].phase); }
    }
  }

  /** A provider's link does not go back, and what it has published is not rewritten. */
  ghost predicate Forward(f: Files, f': Files, p: Provider) {
    && (p in f.links ==> p in f'.links && f.links[p].stamp <= f'.links[p].stamp)
    && (forall g | g in f.published && g.provider == p :: g in f'.published && f'.published[g] == f.published[g])
  }

  lemma StepMovesForward(s: State, a: Action, p: Provider)
    requires KeepApart(s) && FilesOk(s, p) && Enabled(s, a)
    ensures Forward(s.files, FilesAfter(s, a), p)
  {
    hide Enabled, FilesAfter, KeepApart, FilesOk, Transaction;
    if !IsBuildStep(s, a, p) {
      ForeignStepOnFiles(s, a, p);
    } else if a.BSwap? {
      SwapMovesForward(s, a, p);
    } else {
      OnlySwapsPublish(s, a);
    }
  }

  lemma SwapMovesForward(s: State, a: Action, p: Provider)
    requires FilesOk(s, p) && Enabled(s, a) && a.BSwap? && s.builders[a.b].provider == p
    ensures Forward(s.files, FilesAfter(s, a), p)
  {
    var g := s.builders[a.b].phase.gen;
    assert PhaseOk(s.cfg, s.files, s.stamp, p, s.builders[a.b].phase);
    hide FilesOk, Transaction, Whole;
    SwappedKeeps(s.cfg, s.files, s.stamp, p, g);
  }

  lemma OnlySwapsPublish(s: State, a: Action)
    requires Enabled(s, a) && !a.BSwap?
    ensures FilesAfter(s, a).links == s.files.links && FilesAfter(s, a).published == s.files.published
  {
    hide Enabled, BuilderEnabled, Transaction, BuildersAfter, WorkersAfter;
  }

  /** Once set the link stays set and only ever moves to newer generations; what was published is never rewritten. */
  lemma {:induction false} LinksMoveForward(r: Run, i: nat, j: nat, p: Provider)
    requires IsRun(r) && RunsInTime(r, p) && i <= j < |r.states|
    ensures Forward(r.states[i].files, r.states[j].files, p)
    decreases j - i
  {
    assert |r.states| == |r.acts| + 1;
    hide IsRun, RunsInTime, Forward;
    if i == j {
      ForwardTransitive(r.states[i].files, r.states[i].files, r.states[i].files, p);
    } else {
      LinksMoveForward(r, i, j - 1, p);
      NextMovesForward(r, j - 1, p);
      ForwardTransitive(r.states[i].files, r.states[j - 1].files, r.states[j].files, p);
    }
  }

  lemma NextMovesForward(r: Run, i: nat, p: Provider)
    requires IsRun(r) && RunsInTime(r, p) && i < |r.acts| && i + 1 < |r.states|
    ensures Forward(r.states[i].files, r.states[i + 1].files, p)
  {
    EveryRunKeepsFiles(r, i, p);
    assert StepOk(r.states[i], r.acts[i], r.states[i + 1]);
    hide IsRun, RunsInTime, Enabled, LeasesOk, KeepApart, FilesOk, FilesAfter, Forward;
    StepMovesForward(r.states[i], r.acts[i], p);
  }

  /** Where it stands still it is forward too. */
  lemma ForwardTransitive(f: Files, g: Files, h: Files, p: Provider)
    ensures Forward(f, f, p)
    ensures Forward(f, g, p) && Forward(g, h, p) ==> Forward(f, h, p)
  {
  }

  /**
   * Everything a worker reads under one live lease, at whatever moments, is one and the same
   * published generation, however often the link moves meanwhile.
   */
  lemma ReadsAreOneSnapshot(r: Run, i: nat, j: nat, w: nat)
    requires IsRun(r) && i <= j < |r.states| && w in r.states[i].workers && w in r.states[j].workers
    requires RunsInTime(r, r.states[i].workers[w].provider)
    requires r.states[i].workers[w].spot.Read? && r.states[j].workers[w] == r.states[i].workers[w]
    requires Live(r.states[j], r.states[j].workers[w].spot.lease)
    ensures var g := r.states[i].workers[w].spot.gen;
            && g in r.states[i].files.dirs && g in r.states[j].files.dirs
            && r.states[i].files.dirs[g] == r.states[j].files.dirs[g]
  {
    ClockMovesForward(r, i, j);
    ReadersReadFinishedGenerations(r, i, w);
    ReadersReadFinishedGenerations(r, j, w);
    LinksMoveForward(r, i, j, r.states[i].workers[w].provider);
  }

  lemma {:induction false} ClockMovesForward(r: Run, i: nat, j: nat)
    requires IsRun(r) && i <= j < |r.states|
    ensures r.states[i].now <= r.states[j].now && r.states[i].cfg == r.states[j].cfg
    decreases j - i
  {
    if i < j {
      ClockMovesForward(r, i, j - 1);
      assert StepOk(r.states[j - 1], r.acts[j - 1], r.states[j]);
    }
  }

  /**
   * A stale `graph.tmp` of a crashed run blocks nobody: the three steps of `swap_graph_link`
   * each go through, and the last one makes the link name the builder's own generation.
   */
  lemma SwapAlwaysGoesThrough(r: Run, i: nat, b: nat)
    requires IsRun(r) && i < |r.states| && b in r.states[i].builders && RunsInTime(r, r.states[i].builders[b].provider)
    ensures var s := r.states[i];
            var me := s.builders[b];
            && (me.phase.Unstage? ==> me.provider !in FilesAfter(s, BUnstage(b)).staged)
            && (me.phase.Link? ==> NextPhase(s, BLink(b)) == Some(Swap(me.phase.gen)))
            && (me.phase.Swap? ==> SwapsToOwn(s, b))
  {
    var s := r.states[i];
    EveryRunKeepsFiles(r, i, s.builders[b].provider);
    assert PhaseOk(s.cfg, s.files, s.stamp, s.builders[b].provider, s.builders[b].phase);
    hide IsRun, RunsInTime, LeasesOk, KeepApart, FilesOk, Whole, SwapsToOwn;
    if s.builders[b].phase.Swap? { ReadySwapsToOwn(s, b); }
  }

  /** The rename makes the link name the builder's own generation, which is whole and newer than the one it named. */
  ghost predicate SwapsToOwn(s: State, b: nat)
    requires b in s.builders && s.builders[b].phase.Swap?
  {
    var p, g := s.builders[b].provider, s.builders[b].phase.gen;
    && g in s.files.dirs && Whole(s.cfg, s.files.dirs[g])
    && FilesAfter(s, BSwap(b)).links == s.files.links[p := g]
    && (p in s.files.links ==> s.files.links[p].stamp < g.stamp)
  }

  lemma ReadySwapsToOwn(s: State, b: nat)
    requires b in s.builders && s.builders[b].phase.Swap?
    requires PhaseOk(s.cfg, s.files, s.stamp, s.builders[b].provider, s.builders[b].phase)
    ensures SwapsToOwn(s, b)
  {
  }

  /** At most KEEP_GENERATIONS + 1 generations of a provider are on disk, and one less before the first link. */
  lemma DiskBound(r: Run, i: nat, p: Provider)
    requires IsRun(r) && RunsInTime(r, p) && i < |r.states|
    ensures var s := r.states[i];
            |GenerationsOf(s.files, p)| <= s.cfg.keep + (if p in s.files.links then 1 else 0)
  {
    EveryRunKeepsFiles(r, i, p);
    var s := r.states[i];
    if p in s.files.links {
      assert GenerationsOf(s.files, p) == Stale(s.files, p) + {s.files.links[p]};
    } else {
      assert GenerationsOf(s.files, p) == Stale(s.files, p);
    }
  }

  /** One run of `prune_generations` has at most one generation to wait for, whatever KEEP_GENERATIONS is. */
  lemma PruneWaitsForOneAtMost(r: Run, i: nat, b: nat)
    requires IsRun(r) && i < |r.states| && b in r.states[i].builders && RunsInTime(r, r.states[i].builders[b].provider)
    requires r.states[i].builders[b].phase.Prune?
    ensures |r.states[i].builders[b].phase.job.todo| <= 1
  {
    var s := r.states[i];
    EveryRunKeepsFiles(r, i, s.builders[b].provider);
    assert PhaseOk(s.cfg, s.files, s.stamp, s.builders[b].provider, s.builders[b].phase);
  }

  // ----- Without the assumption on provider leases -----

  /** Every rmtree of this provider's that is under way is still covered by its exclusive lease. */
  ghost predicate RemovalsInTime(s: State, p: Provider) {
    forall b | b in s.builders && s.builders[b].provider == p && s.builders[b].phase.Remove? ::
      Live(s, s.builders[b].phase.excl)
  }

  ghost predicate HeldOk(s: State, me: Worker) {
    me.spot.Read? && Live(s, me.spot.lease) ==> me.spot.gen in s.files.dirs && NobodyRemoves(s, me.spot.gen)
  }

  ghost predicate AllHeldOk(s: State, p: Provider) {
    forall w | w in s.workers && s.workers[w].provider == p :: HeldOk(s, s.workers[w])
  }

  /** A worker that has just re-checked shares the generation with no removal in time. */
  lemma CheckedIsNotRemoved(s: State, w: nat)
    requires LeasesOk(s) && KeepApart(s) && w in s.workers && RemovalsInTime(s, s.workers[w].provider)
    requires s.workers[w].spot.Check? && Live(s, s.workers[w].spot.lease)
    ensures NobodyRemoves(s, s.workers[w].spot.gen)
  {
    var me := s.workers[w];
    assert OwnSpot(me.provider, me.spot);
    var c := Claim(me.spot.lease, GenerationDir(me.spot.gen), Shared, WorkerProc(w));
    forall b | b in s.builders ensures !Removing(s.builders[b], me.spot.gen) {
      if Removing(s.builders[b], me.spot.gen) {
        assert OwnPhase(s.builders[b].provider, s.builders[b].phase);
        LiveLeasesExclude(s, c, Claim(s.builders[b].phase.excl, GenerationDir(me.spot.gen), Exclusive, BuilderProc(b)));
      }
    }
  }

  /** Only the end of a removal takes a directory away. */
  lemma StepKeepsDir(s: State, a: Action, g: Gen)
    requires Enabled(s, a) && g in s.files.dirs && NobodyRemoves(s, g)
    ensures g in Apply(s, a).files.dirs
  {
    if a.BGone? {
      assert !Removing(s.builders[a.b], g);
    }
  }

  lemma StepKeepsHeld(s: State, a: Action, p: Provider)
    requires LeasesOk(s) && KeepApart(s) && RemovalsInTime(s, p) && AllHeldOk(s, p) && Enabled(s, a)
    ensures AllHeldOk(Apply(s, a), p)
  {
    var s' := Apply(s, a);
    OnlyTheActorMoves(s, a);
    hide LeasesOk, KeepApart, FilesAfter, Transaction;
    forall w | w in s'.workers && s'.workers[w].provider == p && s'.workers[w].spot.Read?
      && Live(s', s'.workers[w].spot.lease)
      ensures HeldOk(s', s'.workers[w])
    {
      assert w in s.workers && s.workers[w].provider == p;
      var g := s'.workers[w].spot.gen;
      if By(a) == Some(WorkerProc(w)) {
        CheckedIsNotRemoved(s, w);
      } else {
        assert HeldOk(s, s.workers[w]);
        if a.BTry? && s.builders[a.b].phase.job.todo[0] == g { LiveReaderKeepsPruneOut(s, a, w); }
      }
      StepStartsRemoval(s, a, g);
      StepKeepsDir(s, a, g);
    }
  }

  lemma {:induction false} EveryRunKeepsHeld(r: Run, i: nat, p: Provider)
    requires IsRun(r) && i < |r.states|
    requires forall j | 0 <= j < |r.states| :: RemovalsInTime(r.states[j], p)
    ensures AllHeldOk(r.states[i], p)
  {
    if i > 0 {
      EveryRunKeepsHeld(r, i - 1, p);
      EveryRunKeepsLeases(r, i - 1);
      EveryRunKeepsApart(r, i - 1);
      assert StepOk(r.states[i - 1], r.acts[i - 1], r.states[i]);
      StepKeepsHeld(r.states[i - 1], r.acts[i - 1], p);
    }
  }

  /**
   * Even when provider leases lapse and builders of one provider overlap: as long as every rmtree
   * of the provider's ends within its own exclusive lease, no removal ever touches a generation
   * that a worker has re-checked and holds with a live lease, and that directory is there.
   */
  lemma HeldGenerationsAreNotRemoved(r: Run, i: nat, w: nat)
    requires IsRun(r) && i < |r.states| && w in r.states[i].workers
    requires forall j | 0 <= j < |r.states| :: RemovalsInTime(r.states[j], r.states[i].workers[w].provider)
    requires r.states[i].workers[w].spot.Read? && Live(r.states[i], r.states[i].workers[w].spot.lease)
    ensures r.states[i].workers[w].spot.gen in r.states[i].files.dirs
    ensures NobodyRemoves(r.states[i], r.states[i].workers[w].spot.gen)
  {
    EveryRunKeepsHeld(r, i, r.states[i].workers[w].provider);
    assert HeldOk(r.states[i], r.states[i].workers[w]);
  }
}
