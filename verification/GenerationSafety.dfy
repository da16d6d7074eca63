/**
 * The files under the protocol. As long as every builder of a provider finishes `run_build` within
 * the TTL of its provider lease, that provider's link always names a finished generation, readers
 * read what was published, and old generations do not pile up, whatever crashes, however the
 * processes interleave, and whatever the builders of other providers do.
 */
module GenerationSafety {
  import opened Common
  import opened GraphLocks
  import opened LeaseProtocol
  import opened LeaseOwnership

  /** The provider's generation directories that the link does not name. */
  ghost function Stale(f: Files, p: Provider): set<Gen> {
    Others(f.dirs, p, LinkOf(f, p))
  }

  ghost function GenerationsOf(f: Files, p: Provider): set<Gen> {
    set g | g in f.dirs && g.provider == p
  }

  /** The link names an existing directory that is exactly as it was when the link was moved to it. */
  ghost predicate LinkOk(f: Files, p: Provider) {
    p in f.links ==>
      && f.links[p].provider == p
      && f.links[p] in f.dirs && f.links[p] in f.published
      && f.dirs[f.links[p]] == f.published[f.links[p]]
  }

  /** Whatever was published was finished, and is not newer than what the link names now. */
  ghost predicate PublishedOk(cfg: Settings, f: Files, p: Provider) {
    forall g | g in f.published && g.provider == p ::
      Whole(cfg, f.published[g]) && p in f.links && g.stamp <= f.links[p].stamp
  }

  ghost predicate StampsOk(f: Files, stamp: nat, p: Provider) {
    forall g | g in f.dirs && g.provider == p :: g.stamp <= stamp
  }

  ghost predicate DiskOk(cfg: Settings, f: Files, p: Provider) {
    |Stale(f, p)| <= cfg.keep
  }

  /** What holds of a provider's files at all times. */
  ghost predicate ProviderOk(cfg: Settings, f: Files, stamp: nat, p: Provider) {
    LinkOk(f, p) && PublishedOk(cfg, f, p) && StampsOk(f, stamp, p) && DiskOk(cfg, f, p)
  }

  /** A generation that is being built, or is finished but not yet linked. */
  ghost predicate Unpublished(f: Files, p: Provider, g: Gen) {
    && g.provider == p
    && g in f.dirs && g !in f.published
    && (p in f.links ==> f.links[p].stamp < g.stamp)
  }

  /** What is left of the pruning plan still describes the directories. */
  ghost predicate JobOk(cfg: Settings, f: Files, p: Provider, job: PruneJob, left: seq<Gen>) {
    && job.current == LinkOf(f, p)
    && Stale(f, p) <= job.retained + (set g | g in left)
    && |job.retained| <= cfg.keep - 1
    && |left| <= 1
    && forall g | g in job.todo :: g.provider == p && Some(g) != job.current
  }

  /** What a builder may rely on at each point of `run_build`. */
  ghost predicate PhaseOk(cfg: Settings, f: Files, stamp: nat, p: Provider, phase: Phase) {
    match phase
    case Look => true
    case List(current) => current == LinkOf(f, p)
    case Prune(job) => JobOk(cfg, f, p, job, job.todo)
    case Remove(job, _) => job.todo != [] && JobOk(cfg, f, p, job, job.todo)
    case Unlock(job, _) => job.todo != [] && JobOk(cfg, f, p, job, job.todo[1..])
    case Fetch => |Stale(f, p)| <= cfg.keep - 1
    case Make(name) =>
      |Stale(f, p)| <= cfg.keep - 1 && name <= stamp && forall g | g in f.dirs && g.provider == p :: g.stamp <= name
    case Build(g, left) =>
      Unpublished(f, p, g) && f.dirs[g].done + left == AllStages(cfg) && !f.dirs[g].torn
    case Unstage(g) => Unpublished(f, p, g) && Whole(cfg, f.dirs[g])
    case Link(g) => Unpublished(f, p, g) && Whole(cfg, f.dirs[g]) && p !in f.staged
    case Swap(g) => Unpublished(f, p, g) && Whole(cfg, f.dirs[g]) && p in f.staged && f.staged[p] == g
    case Leave => true
  }

  ghost predicate PhasesOk(s: State, p: Provider) {
    forall b | b in s.builders && s.builders[b].provider == p ::
      PhaseOk(s.cfg, s.files, s.stamp, p, s.builders[b].phase)
  }

  /** A generation reads as it was published. */
  ghost predicate AsPublished(f: Files, g: Gen) {
    g in f.dirs && g in f.published && f.dirs[g] == f.published[g]
  }

  /** The builder's rmtree of `g` has not come to its end. */
  ghost predicate Removing(me: Builder, g: Gen) {
    me.phase.Remove? && me.phase.job.todo != [] && me.phase.job.todo[0] == g
  }

  ghost predicate NobodyRemoves(s: State, g: Gen) {
    forall b | b in s.builders :: !Removing(s.builders[b], g)
  }

  /** What a worker with a live lease reads is what was published, and nobody is removing it. */
  ghost predicate ReaderOk(s: State, me: Worker) {
    me.spot.Read? && Live(s, me.spot.lease) ==> AsPublished(s.files, me.spot.gen) && NobodyRemoves(s, me.spot.gen)
  }

  ghost predicate ReadersOk(s: State, p: Provider) {
    forall w | w in s.workers && s.workers[w].provider == p :: ReaderOk(s, s.workers[w])
  }

  /** All of that for one provider, whatever holds of the others. */
  ghost predicate FilesOk(s: State, p: Provider) {
    && s.cfg.keep >= 1 && ProviderOk(s.cfg, s.files, s.stamp, p)
    && PhasesOk(s, p) && ReadersOk(s, p)
  }

  // ----- Every process keeps to its own provider -----

  ghost predicate AllOf(gens: seq<Gen>, p: Provider) {
    forall g | g in gens :: g.provider == p
  }

  /** The generations a builder deals with are those of its provider. */
  ghost predicate OwnPhase(p: Provider, phase: Phase) {
    match phase
    case Prune(job) => AllOf(job.todo, p)
    case Remove(job, _) => AllOf(job.todo, p)
    case Unlock(job, _) => AllOf(job.todo, p)
    case Build(g, _) => g.provider == p
    case Unstage(g) => g.provider == p
    case Link(g) => g.provider == p
    case Swap(g) => g.provider == p
    case _ => true
  }

  /** And so are those a worker deals with. */
  ghost predicate OwnSpot(p: Provider, spot: Spot) {
    spot.Resolve? || spot.gen.provider == p
  }

  ghost predicate OwnLinks(f: Files) {
    && (forall p | p in f.links :: f.links[p].provider == p)
    && (forall p | p in f.staged :: f.staged[p].provider == p)
  }

  ghost predicate KeepApart(s: State) {
    && OwnLinks(s.files)
    && (forall b | b in s.builders :: OwnPhase(s.builders[b].provider, s.builders[b].phase))
    && (forall w | w in s.workers :: OwnSpot(s.workers[w].provider, s.workers[w].spot))
  }

  lemma ListedAreOwn(dirs: map<Gen, Dir>, p: Provider, current: Option<Gen>, others: seq<Gen>, cfg: Settings)
    requires IsListing(others, Others(dirs, p, current))
    ensures AllOf(PlanPrune(cfg, current, others).todo, p)
  {
    forall g | g in PlanPrune(cfg, current, others).todo ensures g.provider == p {
      assert g in others;
      assert g in set h | h in others;
      assert g in Others(dirs, p, current);
    }
  }

  lemma StepKeepsLinksApart(s: State, a: Action)
    requires KeepApart(s) && Enabled(s, a)
    ensures OwnLinks(FilesAfter(s, a))
  {
  }

  lemma PruneStaysOwn(s: State, a: Action)
    requires Enabled(s, a) && (a.BList? || a.BUnlock?) && OwnPhase(s.builders[a.b].provider, s.builders[a.b].phase)
    ensures OwnPhase(s.builders[a.b].provider, NextPhase(s, a).value)
  {
    var p, at := s.builders[a.b].provider, s.builders[a.b].phase;
    hide AllOf, PlanPrune, IsListing;
    if a.BList? {
      ListedAreOwn(s.files.dirs, p, at.current, a.others, s.cfg);
    } else {
      AllOfTail(at.job.todo, p);
    }
  }

  lemma PhaseStaysOwn(s: State, a: Action)
    requires Enabled(s, a) && By(a).Some? && By(a).value.BuilderProc? && !a.BStart?
    requires OwnPhase(s.builders[a.b].provider, s.builders[a.b].phase)
    ensures NextPhase(s, a).Some? ==> OwnPhase(s.builders[a.b].provider, NextPhase(s, a).value)
  {
    hide AllOf, PlanPrune, IsListing, Transaction, AllStages;
    if a.BList? || a.BUnlock? { PruneStaysOwn(s, a); }
  }

  lemma AllOfTail(gens: seq<Gen>, p: Provider)
    requires AllOf(gens, p) && gens != []
    ensures AllOf(gens[1..], p)
  {
    assert forall g | g in gens[1..] :: g in gens;
  }

  lemma SpotStaysOwn(s: State, a: Action)
    requires KeepApart(s) && Enabled(s, a) && By(a).Some? && By(a).value.WorkerProc? && !a.WStart?
    ensures NextWorker(s, a).Some? ==>
              NextWorker(s, a).value.provider == s.workers[a.w].provider
              && OwnSpot(s.workers[a.w].provider, NextWorker(s, a).value.spot)
  {
  }

  lemma StepKeepsApart(s: State, a: Action)
    requires KeepApart(s) && Enabled(s, a)
    ensures KeepApart(Apply(s, a))
  {
    var s' := Apply(s, a);
    StepKeepsLinksApart(s, a);
    OnlyTheActorMoves(s, a);
    hide OwnLinks, FilesAfter, Transaction;
    forall b | b in s'.builders ensures OwnPhase(s'.builders[b].provider, s'.builders[b].phase) {
      if By(a) == Some(BuilderProc(b)) && !a.BStart? { PhaseStaysOwn(s, a); }
    }
    forall w | w in s'.workers ensures OwnSpot(s'.workers[w].provider, s'.workers[w].spot) {
      if By(a) == Some(WorkerProc(w)) && !a.WStart? { SpotStaysOwn(s, a); }
    }
  }

  /** In every run, with no assumption on how long anything takes, nobody touches another provider's generations. */
  lemma {:induction false} EveryRunKeepsApart(r: Run, i: nat)
    requires IsRun(r) && i < |r.states|
    ensures KeepApart(r.states[i])
  {
    if i == 0 {
      InitFiles(r.states[0], Osm);
    } else {
      EveryRunKeepsApart(r, i - 1);
      assert StepOk(r.states[i - 1], r.acts[i - 1], r.states[i]);
      StepKeepsApart(r.states[i - 1], r.acts[i - 1]);
    }
  }

  /** What is done to one provider's files leaves the files of the others alone. */
  lemma ForeignStepOnFiles(s: State, a: Action, p: Provider)
    requires KeepApart(s) && Enabled(s, a)
    requires By(a).Some? && By(a).value.BuilderProc? && !a.BStart? ==> s.builders[a.b].provider != p
    ensures SameFor(s.files, FilesAfter(s, a), p)
  {
    if By(a).Some? && By(a).value.BuilderProc? && !a.BStart? {
      var f, q, at := s.files, s.builders[a.b].provider, s.builders[a.b].phase;
      assert OwnPhase(q, at);
      hide KeepApart, Transaction, IsListing, Torn, Removed, Made, Edited, Unstaged, Staged, Swapped, SameFor;
      SameForItself(f, p);
      match a
      case BTear(_, tiles) => assert at.job.todo[0] in at.job.todo; TornLeavesOthers(f, q, at.job.todo[0], tiles);
      case BGone(_) => assert at.job.todo[0] in at.job.todo; RemovedLeavesOthers(f, q, at.job.todo[0]);
      case BMkdir(_) => MadeLeavesOthers(f, q, Gen(q, at.name));
      case BWrite(_, tiles) => EditedLeavesOthers(f, q, at.gen, f.dirs[at.gen].(tiles := tiles));
      case BStaged(_) => EditedLeavesOthers(f, q, at.gen, f.dirs[at.gen].(done := f.dirs[at.gen].done + [at.left[0]]));
      case BMeta(_) => EditedLeavesOthers(f, q, at.gen, f.dirs[at.gen].(meta := true));
      case BUnstage(_) => UnstagedLeavesOthers(f, q);
      case BLink(_) => StagedLeavesOthers(f, q, at.gen);
      case BSwap(_) => SwappedLeavesOthers(f, q);
      case _ =>
    }
  }

  lemma SameForItself(f: Files, p: Provider)
    ensures SameFor(f, f, p)
  {
  }

  lemma EditedLeavesOthers(f: Files, p: Provider, g: Gen, d: Dir)
    requires g.provider == p
    ensures OthersSame(f, Edited(f, g, d), p)
  {
  }

  lemma UnstagedLeavesOthers(f: Files, p: Provider)
    ensures OthersSame(f, Unstaged(f, p), p)
  {
  }

  lemma StagedLeavesOthers(f: Files, p: Provider, g: Gen)
    ensures OthersSame(f, Staged(f, p, g), p)
  {
  }

  lemma SwappedLeavesOthers(f: Files, p: Provider)
    requires p in f.staged ==> f.staged[p].provider == p
    ensures OthersSame(f, Swapped(f, p), p)
  {
  }

  // ----- Counting -----

  lemma {:induction false} ElementsAtMostLength(gens: seq<Gen>)
    ensures |set g | g in gens| <= |gens|
  {
    if |gens| > 0 {
      var init := gens[..|gens| - 1];
      ElementsAtMostLength(init);
      assert (set g | g in gens) == (set g | g in init) + {gens[|gens| - 1]};
    }
  }

  lemma {:induction false} ListingLength(gens: seq<Gen>)
    requires NewestFirst(gens)
    ensures |set g | g in gens| == |gens|
  {
    if |gens| > 0 {
      var init := gens[..|gens| - 1];
      ListingLength(init);
      assert gens[|gens| - 1] !in init;
      assert (set g | g in gens) == (set g | g in init) + {gens[|gens| - 1]};
    }
  }

  lemma SubsetSize<T>(a: set<T>, b: set<T>)
    requires a <= b
    ensures |a| <= |b|
  {
    assert b == a + (b - a);
  }

  // ----- What each operation on the volume keeps -----

  /** A provider's files are the same in both. */
  ghost predicate SameFor(f: Files, f': Files, q: Provider) {
    && LinkOf(f', q) == LinkOf(f, q)
    && (q in f'.staged <==> q in f.staged) && (q in f.staged ==> f'.staged[q] == f.staged[q])
    && (forall g: Gen | g.provider == q ::
          && (g in f'.dirs <==> g in f.dirs) && (g in f.dirs ==> f'.dirs[g] == f.dirs[g])
          && (g in f'.published <==> g in f.published) && (g in f.published ==> f'.published[g] == f.published[g]))
  }

  ghost predicate OthersSame(f: Files, f': Files, p: Provider) {
    forall q | q != p :: SameFor(f, f', q)
  }

  lemma SameForKeepsPhase(cfg: Settings, f: Files, f': Files, stamp: nat, q: Provider, phase: Phase)
    requires SameFor(f, f', q) && PhaseOk(cfg, f, stamp, q, phase)
    ensures PhaseOk(cfg, f', stamp, q, phase)
  {
    assert Stale(f', q) == Stale(f, q);
  }

  lemma SameForKeepsProvider(cfg: Settings, f: Files, f': Files, stamp: nat, q: Provider)
    requires SameFor(f, f', q) && ProviderOk(cfg, f, stamp, q)
    ensures ProviderOk(cfg, f', stamp, q)
  {
    assert Stale(f', q) == Stale(f, q);
  }

  /** The part of a builder's own provider, from one place in the program to the next. */
  ghost predicate Keeps(cfg: Settings, f: Files, f': Files, stamp: nat, p: Provider, next: Phase) {
    ProviderOk(cfg, f', stamp, p) && PhaseOk(cfg, f', stamp, p, next) && OthersSame(f, f', p)
  }

  lemma TornLeavesOthers(f: Files, p: Provider, g: Gen, tiles: map<string, nat>)
    requires g.provider == p
    ensures OthersSame(f, Torn(f, g, tiles), p)
  {
  }

  lemma TornKeeps(cfg: Settings, f: Files, stamp: nat, p: Provider, job: PruneJob, excl: Lease, tiles: map<string, nat>)
    requires ProviderOk(cfg, f, stamp, p) && PhaseOk(cfg, f, stamp, p, Remove(job, excl))
    ensures Keeps(cfg, f, Torn(f, job.todo[0], tiles), stamp, p, Remove(job, excl))
  {
    var f' := Torn(f, job.todo[0], tiles);
    assert job.todo[0] in job.todo;
    assert Stale(f', p) == Stale(f, p);
    TornLeavesOthers(f, p, job.todo[0], tiles);
    assert ProviderOk(cfg, f', stamp, p);
  }

  lemma RemovedLeavesOthers(f: Files, p: Provider, g: Gen)
    requires g.provider == p
    ensures OthersSame(f, Removed(f, g), p)
  {
  }

  lemma MadeLeavesOthers(f: Files, p: Provider, g: Gen)
    requires g.provider == p
    ensures OthersSame(f, Made(f, g), p)
  {
  }

  lemma RemovedKeepsProvider(cfg: Settings, f: Files, stamp: nat, p: Provider, g: Gen)
    requires ProviderOk(cfg, f, stamp, p) && g.provider == p && Some(g) != LinkOf(f, p)
    ensures ProviderOk(cfg, Removed(f, g), stamp, p)
  {
    StaleWithout(f, p, g);
    hide Stale;
    assert DiskOk(cfg, Removed(f, g), p);
  }

  lemma RemovedKeepsJob(cfg: Settings, f: Files, p: Provider, job: PruneJob)
    requires job.todo != [] && JobOk(cfg, f, p, job, job.todo)
    ensures JobOk(cfg, Removed(f, job.todo[0]), p, job, job.todo[1..])
    ensures job.todo[0].provider == p && Some(job.todo[0]) != LinkOf(f, p)
  {
    var g := job.todo[0];
    assert g in job.todo && job.todo == [g];
    StaleWithout(f, p, g);
    hide Stale;
  }

  lemma RemovedKeeps(cfg: Settings, f: Files, stamp: nat, p: Provider, job: PruneJob, excl: Lease)
    requires ProviderOk(cfg, f, stamp, p) && PhaseOk(cfg, f, stamp, p, Remove(job, excl))
    ensures Keeps(cfg, f, Removed(f, job.todo[0]), stamp, p, Unlock(job, excl))
  {
    hide Stale, JobOk, ProviderOk, OthersSame, Removed;
    RemovedKeepsJob(cfg, f, p, job);
    RemovedKeepsProvider(cfg, f, stamp, p, job.todo[0]);
    RemovedLeavesOthers(f, p, job.todo[0]);
  }

  lemma StaleWithout(f: Files, p: Provider, g: Gen)
    ensures Stale(Removed(f, g), p) == Stale(f, p) - {g}
    ensures |Stale(Removed(f, g), p)| <= |Stale(f, p)|
  {
    SubsetSize(Stale(f, p) - {g}, Stale(f, p));
  }

  lemma StaleWith(f: Files, p: Provider, g: Gen)
    requires g.provider == p && g !in f.dirs
    ensures Stale(Made(f, g), p) <= Stale(f, p) + {g}
    ensures |Stale(Made(f, g), p)| <= |Stale(f, p)| + 1
  {
    SubsetSize(Stale(Made(f, g), p), Stale(f, p) + {g});
  }

  /**
   * The name of a new directory was never published: it would be the name the link has now, and
   * that directory exists, so that `mkdir` fails.
   */
  lemma NameIsFresh(cfg: Settings, f: Files, stamp: nat, p: Provider, name: nat)
    requires ProviderOk(cfg, f, stamp, p) && PhaseOk(cfg, f, stamp, p, Make(name)) && Gen(p, name) !in f.dirs
    ensures Gen(p, name) !in f.published
    ensures p in f.links ==> f.links[p].stamp < name
  {
    if p in f.links {
      assert f.links[p] == Gen(p, f.links[p].stamp);
    }
  }

  lemma MadeKeeps(cfg: Settings, f: Files, stamp: nat, p: Provider, name: nat)
    requires cfg.keep >= 1 && ProviderOk(cfg, f, stamp, p) && PhaseOk(cfg, f, stamp, p, Make(name))
    ensures var g := Gen(p, name);
            Keeps(cfg, f, Made(f, g), stamp, p, if g in f.dirs then Leave else Build(g, AllStages(cfg)))
  {
    var g := Gen(p, name);
    if g !in f.dirs {
      NameIsFresh(cfg, f, stamp, p, name);
      StaleWith(f, p, g);
      MadeLeavesOthers(f, p, g);
      assert [] + AllStages(cfg) == AllStages(cfg);
    }
  }

  lemma EditedKeeps(cfg: Settings, f: Files, stamp: nat, p: Provider, g: Gen, d: Dir)
    requires ProviderOk(cfg, f, stamp, p) && Unpublished(f, p, g)
    ensures var f' := Edited(f, g, d);
            ProviderOk(cfg, f', stamp, p) && Unpublished(f', p, g) && OthersSame(f, f', p)
  {
    assert Stale(Edited(f, g, d), p) == Stale(f, p);
  }

  lemma WrittenKeeps(cfg: Settings, f: Files, stamp: nat, p: Provider, g: Gen, left: seq<Stage>,
                     tiles: map<string, nat>)
    requires ProviderOk(cfg, f, stamp, p) && PhaseOk(cfg, f, stamp, p, Build(g, left))
    ensures Keeps(cfg, f, Edited(f, g, f.dirs[g].(tiles := tiles)), stamp, p, Build(g, left))
  {
    EditedKeeps(cfg, f, stamp, p, g, f.dirs[g].(tiles := tiles));
  }

  lemma StageKeeps(cfg: Settings, f: Files, stamp: nat, p: Provider, g: Gen, left: seq<Stage>)
    requires ProviderOk(cfg, f, stamp, p) && PhaseOk(cfg, f, stamp, p, Build(g, left)) && left != []
    ensures Keeps(cfg, f, Edited(f, g, f.dirs[g].(done := f.dirs[g].done + [left[0]])), stamp, p, Build(g, left[1..]))
  {
    EditedKeeps(cfg, f, stamp, p, g, f.dirs[g].(done := f.dirs[g].done + [left[0]]));
    assert f.dirs[g].done + [left[0]] + left[1..] == f.dirs[g].done + left;
  }

  lemma MetaKeeps(cfg: Settings, f: Files, stamp: nat, p: Provider, g: Gen)
    requires ProviderOk(cfg, f, stamp, p) && PhaseOk(cfg, f, stamp, p, Build(g, []))
    ensures Keeps(cfg, f, Edited(f, g, f.dirs[g].(meta := true)), stamp, p, Unstage(g))
  {
    EditedKeeps(cfg, f, stamp, p, g, f.dirs[g].(meta := true));
    assert f.dirs[g].done + [] == f.dirs[g].done;
  }

  lemma UnstagedKeeps(cfg: Settings, f: Files, stamp: nat, p: Provider, g: Gen)
    requires ProviderOk(cfg, f, stamp, p) && PhaseOk(cfg, f, stamp, p, Unstage(g))
    ensures Keeps(cfg, f, Unstaged(f, p), stamp, p, Link(g))
  {
    assert Stale(Unstaged(f, p), p) == Stale(f, p);
  }

  /** After the unlink nothing is in the way of the new `graph.tmp`. */
  lemma StagedKeeps(cfg: Settings, f: Files, stamp: nat, p: Provider, g: Gen)
    requires ProviderOk(cfg, f, stamp, p) && PhaseOk(cfg, f, stamp, p, Link(g))
    ensures p !in f.staged && Keeps(cfg, f, Staged(f, p, g), stamp, p, Swap(g))
  {
    assert Stale(Staged(f, p, g), p) == Stale(f, p);
  }

  lemma SwappedKeeps(cfg: Settings, f: Files, stamp: nat, p: Provider, g: Gen)
    requires ProviderOk(cfg, f, stamp, p) && PhaseOk(cfg, f, stamp, p, Swap(g))
    ensures var f' := Swapped(f, p);
            && Keeps(cfg, f, f', stamp, p, Leave)
            && f'.links[p] == g && f'.published == f.published[g := f.dirs[g]] && p !in f'.staged
  {
    var f' := Swapped(f, p);
    if p in f.links {
      assert Stale(f', p) <= Stale(f, p) - {g} + {f.links[p]};
      SubsetSize(Stale(f', p), Stale(f, p) - {g} + {f.links[p]});
    } else {
      SubsetSize(Stale(f', p), Stale(f, p));
    }
  }

  /** The listing of the directories leaves at most one generation to remove. */
  lemma ListingPlans(cfg: Settings, f: Files, stamp: nat, p: Provider, current: Option<Gen>, others: seq<Gen>)
    requires cfg.keep >= 1 && DiskOk(cfg, f, p) && PhaseOk(cfg, f, stamp, p, List(current))
    requires IsListing(others, Others(f.dirs, p, current))
    ensures PhaseOk(cfg, f, stamp, p, Prune(PlanPrune(cfg, current, others)))
  {
    var n := Retaining(cfg, others);
    ListingLength(others);
    ElementsAtMostLength(others[..n]);
    assert others == others[..n] + others[n..];
    forall g | g in others[n..] ensures g in Others(f.dirs, p, current) {
      assert g in others;
    }
    var job := PlanPrune(cfg, current, others);
    forall g | g in Stale(f, p) ensures g in job.retained + (set h | h in job.todo) {
      assert g in others;
    }
  }

  lemma PrunedKeeps(cfg: Settings, f: Files, stamp: nat, p: Provider, job: PruneJob)
    requires PhaseOk(cfg, f, stamp, p, Prune(job)) && job.todo == []
    ensures PhaseOk(cfg, f, stamp, p, Fetch)
  {
    SubsetSize(Stale(f, p), job.retained);
  }

  // ----- One step of the system -----

  /** What a builder's step does to its own provider's files, and that it leaves the others alone. */
  ghost predicate GoodStep(s: State, a: Action)
    requires Enabled(s, a) && By(a).Some? && By(a).value.BuilderProc? && !a.BStart?
  {
    match NextPhase(s, a)
    case Some(next) => Keeps(s.cfg, s.files, FilesAfter(s, a), s.stamp, s.builders[a.b].provider, next)
    case None => FilesAfter(s, a) == s.files
  }

  /** What the step of one builder starts from. */
  ghost predicate ActorOk(cfg: Settings, f: Files, stamp: nat, me: Builder) {
    cfg.keep >= 1 && ProviderOk(cfg, f, stamp, me.provider) && PhaseOk(cfg, f, stamp, me.provider, me.phase)
  }

  lemma PlanStepOnFiles(s: State, a: Action)
    requires Enabled(s, a) && (a.BLook? || a.BList? || a.BTry? || a.BPruned?)
    requires ActorOk(s.cfg, s.files, s.stamp, s.builders[a.b])
    ensures GoodStep(s, a)
  {
    var cfg, f, p, at := s.cfg, s.files, s.builders[a.b].provider, s.builders[a.b].phase;
    match a
    case BList(_, others) => ListingPlans(cfg, f, s.stamp, p, at.current, others);
    case BPruned(_) => PrunedKeeps(cfg, f, s.stamp, p, at.job);
    case _ =>
  }

  lemma RemoveStepOnFiles(s: State, a: Action)
    requires Enabled(s, a) && (a.BTear? || a.BGone? || a.BUnlock?)
    requires ActorOk(s.cfg, s.files, s.stamp, s.builders[a.b])
    ensures GoodStep(s, a)
  {
    var cfg, f, p, at := s.cfg, s.files, s.builders[a.b].provider, s.builders[a.b].phase;
    match a
    case BTear(_, tiles) => TornKeeps(cfg, f, s.stamp, p, at.job, at.excl, tiles);
    case BGone(_) => RemovedKeeps(cfg, f, s.stamp, p, at.job, at.excl);
    case BUnlock(_) => assert forall g | g in at.job.todo[1..] :: g in at.job.todo;
    case _ =>
  }

  lemma MakeStepOnFiles(s: State, a: Action)
    requires Enabled(s, a) && (a.BFetched? || a.BMkdir?)
    requires ActorOk(s.cfg, s.files, s.stamp, s.builders[a.b])
    ensures GoodStep(s, a)
  {
    var cfg, f, p, at := s.cfg, s.files, s.builders[a.b].provider, s.builders[a.b].phase;
    match a
    case BFetched(_) => assert PhaseOk(cfg, f, s.stamp, p, Make(s.stamp));
    case BMkdir(_) => MadeKeeps(cfg, f, s.stamp, p, at.name);
    case _ =>
  }

  lemma BuildStepOnFiles(s: State, a: Action)
    requires Enabled(s, a) && (a.BWrite? || a.BStaged? || a.BMeta?)
    requires ActorOk(s.cfg, s.files, s.stamp, s.builders[a.b])
    ensures GoodStep(s, a)
  {
    var cfg, f, p, at := s.cfg, s.files, s.builders[a.b].provider, s.builders[a.b].phase;
    match a
    case BWrite(_, tiles) => WrittenKeeps(cfg, f, s.stamp, p, at.gen, at.left, tiles);
    case BStaged(_) => StageKeeps(cfg, f, s.stamp, p, at.gen, at.left);
    case BMeta(_) => MetaKeeps(cfg, f, s.stamp, p, at.gen);
    case _ =>
  }

  lemma SwapStepOnFiles(s: State, a: Action)
    requires Enabled(s, a) && (a.BUnstage? || a.BLink? || a.BSwap?)
    requires ActorOk(s.cfg, s.files, s.stamp, s.builders[a.b])
    ensures GoodStep(s, a)
  {
    var cfg, f, p, at := s.cfg, s.files, s.builders[a.b].provider, s.builders[a.b].phase;
    match a
    case BUnstage(_) => UnstagedKeeps(cfg, f, s.stamp, p, at.gen);
    case BLink(_) => StagedKeeps(cfg, f, s.stamp, p, at.gen);
    case BSwap(_) => SwappedKeeps(cfg, f, s.stamp, p, at.gen);
    case _ =>
  }

  lemma BuilderStepOnFiles(s: State, a: Action)
    requires Enabled(s, a) && By(a).Some? && By(a).value.BuilderProc? && !a.BStart?
    requires ActorOk(s.cfg, s.files, s.stamp, s.builders[a.b])
    ensures GoodStep(s, a)
  {
    if a.BLook? || a.BList? || a.BTry? || a.BPruned? {
      PlanStepOnFiles(s, a);
    } else if a.BTear? || a.BGone? || a.BUnlock? {
      RemoveStepOnFiles(s, a);
    } else if a.BUnstage? || a.BLink? || a.BSwap? {
      SwapStepOnFiles(s, a);
    } else if a.BFetched? || a.BMkdir? {
      MakeStepOnFiles(s, a);
    } else if a.BWrite? || a.BStaged? || a.BMeta? {
      BuildStepOnFiles(s, a);
    }
  }

  /** The step is one of a builder of this provider, past its start. */
  ghost predicate IsBuildStep(s: State, a: Action, p: Provider)
    requires Enabled(s, a)
  {
    By(a).Some? && By(a).value.BuilderProc? && !a.BStart? && s.builders[a.b].provider == p
  }

  lemma LaterKeepsProvider(cfg: Settings, f: Files, stamp: nat, later: nat, p: Provider)
    requires ProviderOk(cfg, f, stamp, p) && stamp <= later
    ensures ProviderOk(cfg, f, later, p)
  {
  }

  lemma LaterKeepsPhase(cfg: Settings, f: Files, stamp: nat, later: nat, p: Provider, phase: Phase)
    requires PhaseOk(cfg, f, stamp, p, phase) && stamp <= later
    ensures PhaseOk(cfg, f, later, p, phase)
  {
  }

  lemma StepKeepsProvider(s: State, a: Action, p: Provider)
    requires KeepApart(s) && FilesOk(s, p) && Enabled(s, a)
    ensures ProviderOk(s.cfg, FilesAfter(s, a), s.stamp, p)
  {
    hide KeepApart, FilesAfter, ProviderOk, SameFor;
    if IsBuildStep(s, a, p) {
      BuilderStepOnFiles(s, a);
    } else {
      ForeignStepOnFiles(s, a, p);
      SameForKeepsProvider(s.cfg, s.files, FilesAfter(s, a), s.stamp, p);
    }
  }

  /** In time the other builders work for other providers, which leaves this one's files alone. */
  lemma PhaseAfterStep(s: State, a: Action, p: Provider, c: nat)
    requires LeasesOk(s) && KeepApart(s) && InTime(s, p) && FilesOk(s, p) && Enabled(s, a)
    requires c in s.builders && s.builders[c].provider == p && By(a) != Some(BuilderProc(c))
    ensures PhaseOk(s.cfg, FilesAfter(s, a), s.stamp, p, s.builders[c].phase)
  {
    hide KeepApart, LeasesOk, FilesAfter, PhaseOk, SameFor;
    if IsBuildStep(s, a, p) {
      OneBuilderInTime(s, a.b, c);
    } else {
      ForeignStepOnFiles(s, a, p);
      SameForKeepsPhase(s.cfg, s.files, FilesAfter(s, a), s.stamp, p, s.builders[c].phase);
    }
  }

  lemma OwnPhaseAfterStep(s: State, a: Action, p: Provider)
    requires FilesOk(s, p) && Enabled(s, a) && IsBuildStep(s, a, p) && NextPhase(s, a).Some?
    ensures PhaseOk(s.cfg, FilesAfter(s, a), s.stamp, p, NextPhase(s, a).value)
  {
    BuilderStepOnFiles(s, a);
  }

  lemma StepKeepsPhases(s: State, a: Action, p: Provider)
    requires LeasesOk(s) && KeepApart(s) && InTime(s, p) && FilesOk(s, p) && Enabled(s, a)
    ensures PhasesOk(Apply(s, a), p)
  {
    var s' := Apply(s, a);
    OnlyTheActorMoves(s, a);
    hide LeasesOk, KeepApart, FilesOk, PhaseOk, FilesAfter, Transaction, NextPhase;
    forall c | c in s'.builders && s'.builders[c].provider == p
      ensures PhaseOk(s'.cfg, s'.files, s'.stamp, p, s'.builders[c].phase)
    {
      if By(a) != Some(BuilderProc(c)) {
        PhaseAfterStep(s, a, p, c);
        LaterKeepsPhase(s.cfg, FilesAfter(s, a), s.stamp, s'.stamp, p, s'.builders[c].phase);
      } else if a.BStart? {
        NothingToKeep(s'.cfg, s'.files, s'.stamp, p);
      } else {
        OwnPhaseAfterStep(s, a, p);
      }
    }
  }

  lemma NothingToKeep(cfg: Settings, f: Files, stamp: nat, p: Provider)
    ensures PhaseOk(cfg, f, stamp, p, Look)
  {
  }

  lemma BuildKeepsPublished(s: State, a: Action, g: Gen)
    requires FilesOk(s, g.provider) && Enabled(s, a) && IsBuildStep(s, a, g.provider) && AsPublished(s.files, g)
    requires a.BWrite? || a.BStaged? || a.BMeta? || a.BSwap?
    ensures AsPublished(FilesAfter(s, a), g) && FilesAfter(s, a).published[g] == s.files.published[g]
  {
    assert PhaseOk(s.cfg, s.files, s.stamp, g.provider, s.builders[a.b].phase);
  }

  lemma OtherStepKeepsPublished(s: State, a: Action, g: Gen)
    requires Enabled(s, a) && !(a.BWrite? || a.BStaged? || a.BMeta? || a.BSwap?)
    requires AsPublished(s.files, g) && NobodyRemoves(s, g)
    ensures AsPublished(FilesAfter(s, a), g) && FilesAfter(s, a).published[g] == s.files.published[g]
  {
    if a.BTear? || a.BGone? {
      assert !Removing(s.builders[a.b], g);
    }
  }

  /** No step changes a generation as published, unless it is one of its removal. */
  lemma StepKeepsPublished(s: State, a: Action, g: Gen)
    requires KeepApart(s) && FilesOk(s, g.provider) && Enabled(s, a)
    requires AsPublished(s.files, g) && NobodyRemoves(s, g)
    ensures AsPublished(Apply(s, a).files, g) && Apply(s, a).files.published[g] == s.files.published[g]
  {
    hide Enabled, KeepApart, FilesOk, FilesAfter, Transaction, BuildersAfter, WorkersAfter, NobodyRemoves;
    if !IsBuildStep(s, a, g.provider) {
      ForeignStepOnFiles(s, a, g.provider);
    } else if a.BWrite? || a.BStaged? || a.BMeta? || a.BSwap? {
      BuildKeepsPublished(s, a, g);
    } else {
      OtherStepKeepsPublished(s, a, g);
    }
  }

  /** A pruner is refused a generation exactly when some row on it is unexpired at the time of the transaction. */
  lemma PruneIsRefusedExactlyWhenHeld(s: State, a: Action)
    requires Enabled(s, a) && a.BTry?
    ensures Transaction(s, a).1 == None
       <==> exists id | id in s.table.rows ::
              && s.table.rows[id].path == GenerationDir(s.builders[a.b].phase.job.todo[0])
              && Unexpired(s.table.rows[id], a.tx)
  {
    var g, reaped := s.builders[a.b].phase.job.todo[0], Reap(s.table, a.tx);
    if id :| id in s.table.rows && s.table.rows[id].path == GenerationDir(g) && Unexpired(s.table.rows[id], a.tx) {
      assert id in reaped.rows && reaped.rows[id].path == GenerationDir(g);
    }
    if Transaction(s, a).1 == None {
      var id :| id in reaped.rows && reaped.rows[id].path == GenerationDir(g);
      assert id in s.table.rows && Unexpired(s.table.rows[id], a.tx);
    }
  }

  /** A worker is refused a generation exactly when an exclusive row on it is unexpired; other workers are let in. */
  lemma ReadIsRefusedExactlyWhenRemoved(s: State, a: Action)
    requires Enabled(s, a) && a.WTry?
    ensures Transaction(s, a).1 == None
       <==> exists id | id in s.table.rows ::
              && s.table.rows[id].path == GenerationDir(s.workers[a.w].spot.gen)
              && s.table.rows[id].mode == Exclusive && Unexpired(s.table.rows[id], a.tx)
  {
    var g, reaped := s.workers[a.w].spot.gen, Reap(s.table, a.tx);
    if id :| id in s.table.rows && s.table.rows[id].path == GenerationDir(g) && s.table.rows[id].mode == Exclusive
             && Unexpired(s.table.rows[id], a.tx) {
      assert id in reaped.rows && reaped.rows[id].path == GenerationDir(g);
    }
    if Transaction(s, a).1 == None {
      var id :| id in reaped.rows && reaped.rows[id].path == GenerationDir(g) && reaped.rows[id].mode == Exclusive;
      assert id in s.table.rows && Unexpired(s.table.rows[id], a.tx);
    }
  }

  /** A builder is refused its provider exactly when a row on the provider's directory is unexpired. */
  lemma BuildIsRefusedExactlyWhenBuilding(s: State, a: Action)
    requires Enabled(s, a) && a.BStart?
    ensures Transaction(s, a).1 == None
       <==> exists id | id in s.table.rows ::
              s.table.rows[id].path == ProviderDir(a.p) && Unexpired(s.table.rows[id], a.tx)
  {
    var reaped := Reap(s.table, a.tx);
    if id :| id in s.table.rows && s.table.rows[id].path == ProviderDir(a.p) && Unexpired(s.table.rows[id], a.tx) {
      assert id in reaped.rows && reaped.rows[id].path == ProviderDir(a.p);
    }
    if Transaction(s, a).1 == None {
      var id :| id in reaped.rows && reaped.rows[id].path == ProviderDir(a.p);
      assert id in s.table.rows && Unexpired(s.table.rows[id], a.tx);
    }
  }

  /** While a worker holds the generation with a live lease, no builder is granted it exclusively. */
  lemma LiveReaderKeepsPruneOut(s: State, a: Action, w: nat)
    requires LeasesOk(s) && Enabled(s, a) && a.BTry?
    requires w in s.workers && s.workers[w].spot.Read? && Live(s, s.workers[w].spot.lease)
    requires s.builders[a.b].phase.job.todo[0] == s.workers[w].spot.gen
    ensures Transaction(s, a).1 == None
  {
    var me := s.workers[w];
    var c := Claim(me.spot.lease, GenerationDir(me.spot.gen), Shared, WorkerProc(w));
    assert Claims(s, c) && Backed(s.table, s.now, s.cfg.ttl, c);
    assert c.lease.id in Reap(s.table, a.tx).rows;
  }

  /** A generation that stays unremoved stays so, unless a builder is granted it. */
  lemma StepStartsRemoval(s: State, a: Action, g: Gen)
    requires Enabled(s, a) && NobodyRemoves(s, g)
    requires a.BTry? && s.builders[a.b].phase.job.todo[0] == g ==> Transaction(s, a).1 == None
    ensures NobodyRemoves(Apply(s, a), g)
  {
    OnlyTheActorMoves(s, a);
    forall b | b in Apply(s, a).builders ensures !Removing(Apply(s, a).builders[b], g) {
      if By(a) != Some(BuilderProc(b)) {
        assert !Removing(s.builders[b], g);
      } else if !a.BStart? {
        assert !Removing(s.builders[b], g);
      }
    }
  }

  /** Whatever the link names is in nobody's pruning plan. */
  lemma NobodyRemovesCurrent(s: State, p: Provider)
    requires KeepApart(s) && FilesOk(s, p) && p in s.files.links
    ensures NobodyRemoves(s, s.files.links[p])
  {
    assert ProviderOk(s.cfg, s.files, s.stamp, p);
    forall b | b in s.builders ensures !Removing(s.builders[b], s.files.links[p]) {
      var me := s.builders[b];
      if me.provider == p { assert PhaseOk(s.cfg, s.files, s.stamp, p, me.phase); }
      if me.phase.Remove? && me.phase.job.todo != [] {
        assert me.phase.job.todo[0] in me.phase.job.todo;
      }
    }
  }

  lemma StepKeepsReaders(s: State, a: Action, p: Provider)
    requires LeasesOk(s) && KeepApart(s) && FilesOk(s, p) && Enabled(s, a)
    ensures ReadersOk(Apply(s, a), p)
  {
    var s' := Apply(s, a);
    OnlyTheActorMoves(s, a);
    hide FilesAfter, Transaction, ReaderOk, ProviderOk, PhasesOk;
    forall w | w in s'.workers && s'.workers[w].provider == p && s'.workers[w].spot.Read?
      && Live(s', s'.workers[w].spot.lease)
      ensures ReaderOk(s', s'.workers[w])
    {
      assert w in s.workers && s.workers[w].provider == p;
      if By(a) == Some(WorkerProc(w)) {
        ReaderAfterCheck(s, a, p);
      } else {
        assert OwnSpot(p, s.workers[w].spot);
        ReaderAfterStep(s, a, w);
      }
    }
  }

  /** The re-check has just found the link naming the generation. */
  lemma ReaderAfterCheck(s: State, a: Action, p: Provider)
    requires KeepApart(s) && FilesOk(s, p) && Enabled(s, a) && By(a).Some? && By(a).value.WorkerProc?
    requires a.w in s.workers && s.workers[a.w].provider == p
    requires a.w in Apply(s, a).workers && Apply(s, a).workers[a.w].spot.Read?
    ensures ReaderOk(Apply(s, a), Apply(s, a).workers[a.w])
  {
    var g := Apply(s, a).workers[a.w].spot.gen;
    assert p in s.files.links && s.files.links[p] == g;
    assert ProviderOk(s.cfg, s.files, s.stamp, p);
    NobodyRemovesCurrent(s, p);
    StepStartsRemoval(s, a, g);
  }

  lemma ReaderAfterStep(s: State, a: Action, w: nat)
    requires LeasesOk(s) && KeepApart(s) && Enabled(s, a) && w in s.workers && By(a) != Some(WorkerProc(w))
    requires s.workers[w].spot.Read? && Live(s, s.workers[w].spot.lease)
    requires ReaderOk(s, s.workers[w]) && FilesOk(s, s.workers[w].spot.gen.provider)
    ensures ReaderOk(Apply(s, a), s.workers[w])
  {
    hide LeasesOk, KeepApart, FilesOk, FilesAfter, Transaction;
    var g := s.workers[w].spot.gen;
    StepKeepsPublished(s, a, g);
    if a.BTry? && s.builders[a.b].phase.job.todo[0] == g { LiveReaderKeepsPruneOut(s, a, w); }
    StepStartsRemoval(s, a, g);
  }

  lemma StepKeepsFiles(s: State, a: Action, p: Provider)
    requires LeasesOk(s) && KeepApart(s) && InTime(s, p) && FilesOk(s, p) && Enabled(s, a)
    ensures FilesOk(Apply(s, a), p)
  {
    hide LeasesOk, KeepApart, PhasesOk, ReadersOk, ProviderOk, FilesAfter, Transaction, BuildersAfter, WorkersAfter;
    StepKeepsProvider(s, a, p);
    LaterKeepsProvider(s.cfg, FilesAfter(s, a), s.stamp, Apply(s, a).stamp, p);
    StepKeepsPhases(s, a, p);
    StepKeepsReaders(s, a, p);
  }

  lemma InitFiles(s: State, p: Provider)
    requires Init(s)
    ensures KeepApart(s) && FilesOk(s, p)
  {
    assert Stale(s.files, p) == {};
  }

  lemma {:induction false} EveryRunKeepsFiles(r: Run, i: nat, p: Provider)
    requires IsRun(r) && RunsInTime(r, p) && i < |r.states|
    ensures LeasesOk(r.states[i]) && KeepApart(r.states[i]) && FilesOk(r.states[i], p)
  {
    EveryRunKeepsLeases(r, i);
    EveryRunKeepsApart(r, i);
    if i == 0 {
      InitFiles(r.states[0], p);
    } else {
      EveryRunKeepsFiles(r, i - 1, p);
      assert StepOk(r.states[i - 1], r.acts[i - 1], r.states[i]);
      StepKeepsFiles(r.states[i - 1], r.acts[i - 1], p);
    }
  }
}
