/**
 * Builders and workers as a transition system. They share the lock table, one `graph` link
 * per provider, the staged `graph.tmp` link and the generation directories; every action below
 * is one atomic access to that shared state, or a crash. `Apply` follows the program text of
 * `run_build`, `prune_generations`, `build_graph`, `swap_graph_link` and `lock_generation_shared`.
 */
module LeaseProtocol {
  import opened Common
  import opened GraphLocks

  /** GRAPH_LOCK_TTL, KEEP_GENERATIONS and USE_ELEVATION. */
  datatype Settings = Settings(ttl: nat, keep: nat, elevation: bool)

  const RESOLVE_ATTEMPTS := 2

  /** The subprocesses of `build_graph`. */
  datatype Stage = ConfigStage | TileStage | ElevationStage | EnhanceStage

  function AllStages(cfg: Settings): seq<Stage> {
    [ConfigStage, TileStage] + (if cfg.elevation then [ElevationStage] else []) + [EnhanceStage]
  }

  /**
   * What a generation directory holds: the stages that ran to their end, whether
   * `build_meta.json` is written, every tile's content by its path, and whether a removal
   * has begun to delete files.
   */
  datatype Dir = Dir(done: seq<Stage>, meta: bool, tiles: map<string, nat>, torn: bool)

  const EMPTY_DIR := Dir([], false, map[], false)

  ghost predicate Whole(cfg: Settings, d: Dir) {
    d.done == AllStages(cfg) && d.meta && !d.torn
  }

  /** A granted lease: its row's id and the timestamp of the transaction that inserted it. */
  datatype Lease = Lease(id: nat, since: int)

  /** What `prune_generations` still has to remove, newest first. */
  datatype PruneJob = PruneJob(current: Option<Gen>, retained: set<Gen>, todo: seq<Gen>)

  /** How far a builder is in `run_build`, while it holds the provider lease. */
  datatype Phase =
    | Look
    | List(current: Option<Gen>)
    | Prune(job: PruneJob)
    | Remove(job: PruneJob, excl: Lease)
    | Unlock(job: PruneJob, excl: Lease)
    | Fetch
    | Make(name: nat)
    | Build(gen: Gen, left: seq<Stage>)
    | Unstage(gen: Gen)
    | Link(gen: Gen)
    | Swap(gen: Gen)
    | Leave

  datatype Builder = Builder(provider: Provider, lease: Lease, phase: Phase)

  /** How far a worker is in `lock_generation_shared`. */
  datatype Spot =
    | Resolve
    | Lock(gen: Gen)
    | Check(gen: Gen, lease: Lease)
    | Drop(gen: Gen, lease: Lease)
    | Read(gen: Gen, lease: Lease)

  datatype Worker = Worker(provider: Provider, tries: nat, spot: Spot)

  /**
   * The volume: the `graph` links, the staged `graph.tmp` links and the generation directories.
   * `published` is a history variable: what a generation held when the link was moved to it.
   */
  datatype Files = Files(
    links: map<Provider, Gen>,
    staged: map<Provider, Gen>,
    dirs: map<Gen, Dir>,
    published: map<Gen, Dir>)

  const EMPTY_FILES := Files(map[], map[], map[], map[])

  /**
   * The clock of the database, the clock the builders name generations by, the shared state,
   * and every process inside `run_build` or `lock_generation_shared`.
   */
  datatype State = State(
    cfg: Settings,
    now: int,
    stamp: nat,
    table: Table,
    files: Files,
    builders: map<nat, Builder>,
    workers: map<nat, Worker>)

  datatype Action =
    | Tick(now: int, stamp: nat)
    | BStart(b: nat, p: Provider, tx: int)
    | BLook(b: nat)
    | BList(b: nat, others: seq<Gen>)
    | BTry(b: nat, tx: int, last: bool)
    | BTear(b: nat, tiles: map<string, nat>)
    | BGone(b: nat)
    | BUnlock(b: nat)
    | BPruned(b: nat)
    | BFetched(b: nat)
    | BMkdir(b: nat)
    | BWrite(b: nat, tiles: map<string, nat>)
    | BStaged(b: nat)
    | BMeta(b: nat)
    | BUnstage(b: nat)
    | BLink(b: nat)
    | BSwap(b: nat)
    | BFail(b: nat)
    | BLeave(b: nat)
    | BCrash(b: nat)
    | WStart(w: nat, p: Provider)
    | WResolve(w: nat)
    | WRaise(w: nat)
    | WTry(w: nat, tx: int, last: bool)
    | WCheck(w: nat)
    | WDrop(w: nat)
    | WDone(w: nat)
    | WCrash(w: nat)

  /** The process that takes the action; the clock is nobody's. */
  function By(a: Action): Option<Holder> {
    match a
    case Tick(_, _) => None
    case WStart(w, _) => Some(WorkerProc(w))
    case WResolve(w) => Some(WorkerProc(w))
    case WRaise(w) => Some(WorkerProc(w))
    case WTry(w, _, _) => Some(WorkerProc(w))
    case WCheck(w) => Some(WorkerProc(w))
    case WDrop(w) => Some(WorkerProc(w))
    case WDone(w) => Some(WorkerProc(w))
    case WCrash(w) => Some(WorkerProc(w))
    case _ => Some(BuilderProc(a.b))
  }

  function LinkOf(f: Files, p: Provider): Option<Gen> {
    if p in f.links then Some(f.links[p]) else None
  }

  /** `link.resolve(strict=True)`: the target, which has to exist. */
  function Resolved(f: Files, p: Provider): Option<Gen> {
    if p in f.links && f.links[p] in f.dirs then Some(f.links[p]) else None
  }

  /** The directories the pruner considers: all of the provider's but the current one. */
  function Others(dirs: map<Gen, Dir>, p: Provider, current: Option<Gen>): set<Gen> {
    set g | g in dirs && g.provider == p && Some(g) != current
  }

  /** Names are timestamps, so reverse order is newest to oldest. */
  predicate NewestFirst(gens: seq<Gen>) {
    forall i, j | 0 <= i < j < |gens| :: gens[i].stamp > gens[j].stamp
  }

  predicate IsListing(gens: seq<Gen>, of: set<Gen>) {
    NewestFirst(gens) && (set g | g in gens) == of
  }

  /** How many of the directories that are not current are kept. */
  function Retaining(cfg: Settings, others: seq<Gen>): nat {
    Min(Max(cfg.keep - 1, 0), |others|)
  }

  function PlanPrune(cfg: Settings, current: Option<Gen>, others: seq<Gen>): PruneJob {
    var n := Retaining(cfg, others);
    PruneJob(current, (set g | g in others[..n]), others[n..])
  }

  function Without<K, V>(m: map<K, V>, k: K): map<K, V> {
    m - {k}
  }

  predicate Enabled(s: State, a: Action) {
    match a
    case Tick(now, stamp) => s.now <= now && s.stamp <= stamp
    case BStart(b, _, tx) => b !in s.builders && tx <= s.now
    case WStart(w, _) => w !in s.workers
    case WResolve(w) => w in s.workers && s.workers[w].spot.Resolve? && s.workers[w].tries > 0
    case WRaise(w) => w in s.workers && s.workers[w].spot.Resolve? && s.workers[w].tries == 0
    case WTry(w, tx, _) => w in s.workers && s.workers[w].spot.Lock? && tx <= s.now
    case WCheck(w) => w in s.workers && s.workers[w].spot.Check?
    case WDrop(w) => w in s.workers && s.workers[w].spot.Drop?
    case WDone(w) => w in s.workers && s.workers[w].spot.Read?
    case WCrash(w) => w in s.workers
    case _ => a.b in s.builders && BuilderEnabled(s, a, s.builders[a.b].phase)
  }

  predicate BuilderEnabled(s: State, a: Action, at: Phase)
    requires !a.BStart? && !a.Tick? && By(a).Some? && By(a).value.BuilderProc?
    requires a.b in s.builders && s.builders[a.b].phase == at
  {
    match a
    case BLook(_) => at.Look?
    case BList(b, others) => at.List? && IsListing(others, Others(s.files.dirs, s.builders[b].provider, at.current))
    case BTry(_, tx, _) => at.Prune? && at.job.todo != [] && tx <= s.now
    case BTear(_, _) => at.Remove? && at.job.todo != []
    case BGone(_) => at.Remove? && at.job.todo != []
    case BUnlock(_) => at.Unlock? && at.job.todo != []
    case BPruned(_) => at.Prune? && at.job.todo == []
    case BFetched(_) => at.Fetch?
    case BMkdir(_) => at.Make?
    case BWrite(_, _) => at.Build? && at.left != [] && at.gen in s.files.dirs
    case BStaged(_) => at.Build? && at.left != [] && at.gen in s.files.dirs
    case BMeta(_) => at.Build? && at.left == [] && at.gen in s.files.dirs
    case BUnstage(_) => at.Unstage?
    case BLink(_) => at.Link?
    case BSwap(_) => at.Swap?
    case BFail(_) => !at.Prune? && !at.Remove? && !at.Unlock? && !at.Leave?
    case BLeave(_) => at.Leave?
    case BCrash(_) => true
  }

  // ----- The effect of an action, one shared variable at a time -----

  /** The lease the action asks the table for, if it asks for one. */
  function Asked(s: State, a: Action): Option<(Path, Mode, Holder, int)>
    requires Enabled(s, a)
  {
    match a
    case BStart(b, p, tx) => Some((ProviderDir(p), Exclusive, BuilderProc(b), tx))
    case BTry(b, tx, _) => Some((GenerationDir(s.builders[b].phase.job.todo[0]), Exclusive, BuilderProc(b), tx))
    case WTry(w, tx, _) => Some((GenerationDir(s.workers[w].spot.gen), Shared, WorkerProc(w), tx))
    case _ => None
  }

  /** The lease the action gives back, if it gives one back. */
  function Freed(s: State, a: Action): Option<Lease>
    requires Enabled(s, a)
  {
    match a
    case BUnlock(b) => Some(s.builders[b].phase.excl)
    case BLeave(b) => Some(s.builders[b].lease)
    case WDrop(w) => Some(s.workers[w].spot.lease)
    case WDone(w) => Some(s.workers[w].spot.lease)
    case _ => None
  }

  /** The transaction the action commits on the lock table, and its answer. */
  function Transaction(s: State, a: Action): (Table, Option<nat>)
    requires Enabled(s, a)
  {
    match Asked(s, a)
    case Some((path, mode, holder, tx)) => AfterAcquire(s.table, path, mode, holder, tx, s.cfg.ttl)
    case None =>
      match Freed(s, a)
      case Some(lease) => (AfterRelease(s.table, lease.id), None)
      case None => (s.table, None)
  }

  /** Where the builder is after its action; it may also have left `run_build`. */
  function NextPhase(s: State, a: Action): Option<Phase>
    requires Enabled(s, a) && By(a).Some? && By(a).value.BuilderProc? && !a.BStart?
  {
    var me := s.builders[a.b];
    var at := me.phase;
    match a
    case BLook(_) => Some(List(LinkOf(s.files, me.provider)))
    case BList(_, others) => Some(Prune(PlanPrune(s.cfg, at.current, others)))
    case BTry(_, tx, last) =>
      // The last attempt that is refused aborts the build.
      var id := Transaction(s, a).1;
      Some(if id.Some? then Remove(at.job, Lease(id.value, tx)) else if last then Leave else at)
    case BTear(_, _) => Some(at)
    case BGone(_) => Some(Unlock(at.job, at.excl))
    case BUnlock(_) => Some(Prune(at.job.(todo := at.job.todo[1..])))
    case BPruned(_) => Some(Fetch)
    case BFetched(_) =>
      // The clock names the directory before `mkdir` makes it.
      Some(Make(s.stamp))
    case BMkdir(_) =>
      // A directory of that name is an error.
      var g := Gen(me.provider, at.name);
      Some(if g in s.files.dirs then Leave else Build(g, AllStages(s.cfg)))
    case BWrite(_, _) => Some(at)
    case BStaged(_) => Some(Build(at.gen, at.left[1..]))
    case BMeta(_) => Some(Unstage(at.gen))
    case BUnstage(_) => Some(Link(at.gen))
    case BLink(_) => Some(if me.provider in s.files.staged then Leave else Swap(at.gen))
    case BSwap(_) => Some(Leave)
    case BFail(_) => Some(Leave)
    case BLeave(_) => None
    case BCrash(_) => None
  }

  function BuildersAfter(s: State, a: Action): map<nat, Builder>
    requires Enabled(s, a)
  {
    if By(a).None? || By(a).value.WorkerProc? then s.builders
    else if a.BStart? then
      // The single attempt at the provider's lease; without it the run is skipped.
      match Transaction(s, a).1
      case Some(id) => s.builders[a.b := Builder(a.p, Lease(id, a.tx), Look)]
      case None => s.builders
    else
      match NextPhase(s, a)
      case Some(phase) => s.builders[a.b := s.builders[a.b].(phase := phase)]
      case None => Without(s.builders, a.b)
  }

  /** Where the worker is after its action; it may also have left `lock_generation_shared`. */
  function NextWorker(s: State, a: Action): Option<Worker>
    requires Enabled(s, a) && By(a).Some? && By(a).value.WorkerProc? && !a.WStart?
  {
    var me := s.workers[a.w];
    match a
    case WResolve(_) =>
      var target := Resolved(s.files, me.provider);
      Some(Worker(me.provider, me.tries - 1, if target.Some? then Lock(target.value) else Resolve))
    case WTry(_, tx, last) =>
      var id := Transaction(s, a).1;
      Some(if id.Some? then me.(spot := Check(me.spot.gen, Lease(id.value, tx)))
           else if last then me.(spot := Resolve) else me)
    case WCheck(_) =>
      Some(me.(spot := if Resolved(s.files, me.provider) == Some(me.spot.gen) then Read(me.spot.gen, me.spot.lease)
                       else Drop(me.spot.gen, me.spot.lease)))
    case WDrop(_) => Some(me.(spot := Resolve))
    case WDone(_) => None
    case WRaise(_) => None
    case WCrash(_) => None
  }

  function WorkersAfter(s: State, a: Action): map<nat, Worker>
    requires Enabled(s, a)
  {
    if By(a).None? || By(a).value.BuilderProc? then s.workers
    else if a.WStart? then s.workers[a.w := Worker(a.p, RESOLVE_ATTEMPTS, Resolve)]
    else
      match NextWorker(s, a)
      case Some(me) => s.workers[a.w := me]
      case None => Without(s.workers, a.w)
  }

  // ----- The effect of an action on the volume -----

  /** `rmtree` in the middle of its work. */
  function Torn(f: Files, g: Gen, tiles: map<string, nat>): Files {
    if g in f.dirs then f.(dirs := f.dirs[g := f.dirs[g].(torn := true, tiles := tiles)]) else f
  }

  /** `rmtree` done. */
  function Removed(f: Files, g: Gen): Files {
    f.(dirs := Without(f.dirs, g))
  }

  function Made(f: Files, g: Gen): Files {
    if g in f.dirs then f else f.(dirs := f.dirs[g := EMPTY_DIR])
  }

  function Edited(f: Files, g: Gen, d: Dir): Files {
    f.(dirs := f.dirs[g := d])
  }

  function Unstaged(f: Files, p: Provider): Files {
    f.(staged := Without(f.staged, p))
  }

  /** `symlink_to`, which changes nothing when `graph.tmp` exists. */
  function Staged(f: Files, p: Provider, g: Gen): Files {
    if p in f.staged then f else f.(staged := f.staged[p := g])
  }

  /** `os.replace`, which moves whatever `graph.tmp` is and changes nothing when it is missing. */
  function Swapped(f: Files, p: Provider): Files {
    if p !in f.staged then f
    else
      var g := f.staged[p];
      Files(f.links[p := g], Without(f.staged, p), f.dirs,
            if g in f.dirs then f.published[g := f.dirs[g]] else f.published)
  }

  function FilesAfter(s: State, a: Action): Files
    requires Enabled(s, a)
  {
    match a
    case BTear(b, tiles) => Torn(s.files, s.builders[b].phase.job.todo[0], tiles)
    case BGone(b) => Removed(s.files, s.builders[b].phase.job.todo[0])
    case BMkdir(b) => Made(s.files, Gen(s.builders[b].provider, s.builders[b].phase.name))
    case BWrite(b, tiles) =>
      var g := s.builders[b].phase.gen;
      Edited(s.files, g, s.files.dirs[g].(tiles := tiles))
    case BStaged(b) =>
      var at := s.builders[b].phase;
      Edited(s.files, at.gen, s.files.dirs[at.gen].(done := s.files.dirs[at.gen].done + [at.left[0]]))
    case BMeta(b) =>
      var g := s.builders[b].phase.gen;
      Edited(s.files, g, s.files.dirs[g].(meta := true))
    case BUnstage(b) => Unstaged(s.files, s.builders[b].provider)
    case BLink(b) => Staged(s.files, s.builders[b].provider, s.builders[b].phase.gen)
    case BSwap(b) => Swapped(s.files, s.builders[b].provider)
    case _ => s.files
  }

  function Apply(s: State, a: Action): State
    requires Enabled(s, a)
  {
    State(s.cfg,
          if a.Tick? then a.now else s.now,
          if a.Tick? then a.stamp else s.stamp,
          Transaction(s, a).0,
          FilesAfter(s, a),
          BuildersAfter(s, a), WorkersAfter(s, a))
  }

  // ----- Runs -----

  ghost predicate Init(s: State) {
    && s.cfg.keep >= 1
    && s.table == EMPTY
    && s.files == EMPTY_FILES
    && s.builders == map[] && s.workers == map[]
  }

  /** A run: the states it passes through and the action taken in each but the last. */
  datatype Run = Run(states: seq<State>, acts: seq<Action>)

  ghost predicate StepOk(s: State, a: Action, s': State) {
    Enabled(s, a) && s' == Apply(s, a)
  }

  ghost predicate IsRun(r: Run) {
    && |r.states| == |r.acts| + 1
    && Init(r.states[0])
    && forall i | 0 <= i < |r.acts| :: StepOk(r.states[i], r.acts[i], r.states[i + 1])
  }

  /** The lease is unexpired: less than the TTL has passed since the transaction that took it. */
  ghost predicate Live(s: State, l: Lease) {
    s.now < l.since + s.cfg.ttl
  }

  /** Every builder of this provider inside `run_build` is still within the TTL of its provider lease. */
  ghost predicate InTime(s: State, p: Provider) {
    forall b | b in s.builders && s.builders[b].provider == p :: Live(s, s.builders[b].lease)
  }

  ghost predicate RunsInTime(r: Run, p: Provider) {
    forall i | 0 <= i < |r.states| :: InTime(r.states[i], p)
  }
}
