/**
 * Why the TTL of the leases matters. A builder that outlives its provider lease can leave the link
 * dangling, and a worker that outlives its shared lease can lose the generation it reads.
 */
module ExpiredLeases {
  import opened Common
  import opened GraphLocks
  import opened LeaseProtocol
  import opened Interference

  const CFG := Settings(1, 1, false)
  const STAGES := [ConfigStage, TileStage, EnhanceStage]
  const BUILT := Dir(STAGES, true, map[], false)
  const UNFINISHED := BUILT.(meta := false)

  /** Every builder of every provider has been in time. */
  ghost predicate AllInTime(r: Run) {
    forall p :: RunsInTime(r, p)
  }

  lemma OneStep(r: Run, a: Action, s: State) returns (r': Run)
    requires IsRun(r) && StepOk(r.states[|r.acts|], a, s)
    ensures IsRun(r') && r'.states[|r'.acts|] == s
    ensures AllInTime(r) && (forall p :: InTime(s, p)) ==> AllInTime(r')
    ensures forall p :: RunsInTime(r', p) ==> RunsInTime(r, p) && InTime(s, p)
  {
    AppendIsRun(r, a, s);
    r' := Append(r, a, s);
    forall p ensures RunsInTime(r', p) <==> RunsInTime(r, p) && InTime(s, p) {
      if RunsInTime(r', p) {
        InTimeBefore(r, r', p);
        assert InTime(r'.states[|r'.acts|], p);
      }
    }
  }

  // ----- A build at time 0, while no other one is under way -----

  /** The world a build finds: the second by the builders' clock, the lock table, the volume and the workers. */
  datatype World = World(stamp: nat, table: Table, files: Files, workers: map<nat, Worker>)

  const NEW_WORLD := World(0, EMPTY, EMPTY_FILES, map[])

  function NewGen(w: World): Gen {
    Gen(Osm, w.stamp)
  }

  /** Nothing is in the way of a build, and there is nothing to prune. */
  ghost predicate Ready(w: World) {
    && Reap(w.table, 0) == w.table && w.table.nextId !in w.table.rows
    && !Blocked(w.table, ProviderDir(Osm), Exclusive)
    && w.files.staged == map[] && NewGen(w) !in w.files.dirs
    && Others(w.files.dirs, Osm, LinkOf(w.files, Osm)) == {}
  }

  function Idle(w: World): State {
    State(CFG, 0, w.stamp, w.table, w.files, map[], w.workers)
  }

  function Leased(w: World, b: nat): Table {
    Table(w.table.rows[w.table.nextId := Row(ProviderDir(Osm), Exclusive, BuilderProc(b), 0, 1)], w.table.nextId + 1)
  }

  /** The builder is at `phase`. */
  function Busy(w: World, b: nat, phase: Phase, staged: map<Provider, Gen>, dirs: map<Gen, Dir>): State {
    State(CFG, 0, w.stamp, Leased(w, b), Files(w.files.links, staged, dirs, w.files.published),
          map[b := Builder(Osm, Lease(w.table.nextId, 0), phase)], w.workers)
  }

  /** What a build leaves: its generation is linked, and its lease is given back. */
  function Built(w: World): World {
    var g := NewGen(w);
    World(w.stamp, Table(w.table.rows, w.table.nextId + 1),
          Files(w.files.links[Osm := g], map[], w.files.dirs[g := BUILT], w.files.published[g := BUILT]), w.workers)
  }

  /** The link is moved, and the lease is still to be given back. */
  function Leaving(w: World, b: nat): State {
    Busy(w, b, Leave, map[], w.files.dirs).(files := Built(w).files)
  }

  lemma Starts(r0: Run, w: World, b: nat) returns (r: Run)
    requires Ready(w) && IsRun(r0) && AllInTime(r0) && r0.states[|r0.acts|] == Idle(w)
    ensures IsRun(r) && AllInTime(r)
    ensures r.states[|r.acts|] == Busy(w, b, List(LinkOf(w.files, Osm)), map[], w.files.dirs)
  {
    hide IsRun, AllInTime;
    var dirs := w.files.dirs;
    r := OneStep(r0, BStart(b, Osm, 0), Busy(w, b, Look, map[], dirs));
    r := OneStep(r, BLook(b), Busy(w, b, List(LinkOf(w.files, Osm)), map[], dirs));
  }

  lemma ListsNothing(r0: Run, w: World, b: nat) returns (r: Run)
    requires Ready(w) && IsRun(r0) && AllInTime(r0)
    requires r0.states[|r0.acts|] == Busy(w, b, List(LinkOf(w.files, Osm)), map[], w.files.dirs)
    ensures IsRun(r) && AllInTime(r) && r.states[|r.acts|] == Busy(w, b, Fetch, map[], w.files.dirs)
  {
    hide IsRun, AllInTime;
    var dirs, current := w.files.dirs, LinkOf(w.files, Osm);
    assert PlanPrune(CFG, current, []) == PruneJob(current, {}, []);
    r := OneStep(r0, BList(b, []), Busy(w, b, Prune(PruneJob(current, {}, [])), map[], dirs));
    r := OneStep(r, BPruned(b), Busy(w, b, Fetch, map[], dirs));
  }

  lemma RunsStage(r0: Run, w: World, b: nat, left: seq<Stage>, done: seq<Stage>) returns (r: Run)
    requires IsRun(r0) && AllInTime(r0) && left != []
    requires r0.states[|r0.acts|]
             == Busy(w, b, Build(NewGen(w), left), map[], w.files.dirs[NewGen(w) := EMPTY_DIR.(done := done)])
    ensures IsRun(r) && AllInTime(r)
    ensures r.states[|r.acts|]
            == Busy(w, b, Build(NewGen(w), left[1..]), map[],
                    w.files.dirs[NewGen(w) := EMPTY_DIR.(done := done + [left[0]])])
  {
    hide IsRun, AllInTime;
    var g, dir := NewGen(w), EMPTY_DIR.(done := done + [left[0]]);
    assert w.files.dirs[g := EMPTY_DIR.(done := done)][g := dir] == w.files.dirs[g := dir];
    r := OneStep(r0, BStaged(b), Busy(w, b, Build(g, left[1..]), map[], w.files.dirs[g := dir]));
  }

  lemma Makes(r0: Run, w: World, b: nat) returns (r: Run)
    requires Ready(w) && IsRun(r0) && AllInTime(r0) && r0.states[|r0.acts|] == Busy(w, b, Fetch, map[], w.files.dirs)
    ensures IsRun(r) && AllInTime(r)
    ensures r.states[|r.acts|] == Busy(w, b, Build(NewGen(w), STAGES), map[], w.files.dirs[NewGen(w) := EMPTY_DIR])
  {
    hide IsRun, AllInTime;
    r := OneStep(r0, BFetched(b), Busy(w, b, Make(w.stamp), map[], w.files.dirs));
    assert AllStages(CFG) == STAGES;
    r := OneStep(r, BMkdir(b), Busy(w, b, Build(NewGen(w), STAGES), map[], w.files.dirs[NewGen(w) := EMPTY_DIR]));
  }

  lemma RunsAll(r0: Run, w: World, b: nat) returns (r: Run)
    requires IsRun(r0) && AllInTime(r0)
    requires r0.states[|r0.acts|] == Busy(w, b, Build(NewGen(w), STAGES), map[], w.files.dirs[NewGen(w) := EMPTY_DIR])
    ensures IsRun(r) && AllInTime(r)
    ensures r.states[|r.acts|] == Busy(w, b, Build(NewGen(w), []), map[], w.files.dirs[NewGen(w) := UNFINISHED])
  {
    hide IsRun, AllInTime, Busy;
    r := RunsStage(r0, w, b, STAGES, []);
    assert STAGES[1..] == [TileStage, EnhanceStage] && [] + [ConfigStage] == [ConfigStage];
    r := RunsStage(r, w, b, [TileStage, EnhanceStage], [ConfigStage]);
    assert [TileStage, EnhanceStage][1..] == [EnhanceStage] && [ConfigStage] + [TileStage] == [ConfigStage, TileStage];
    r := RunsStage(r, w, b, [EnhanceStage], [ConfigStage, TileStage]);
    assert [EnhanceStage][1..] == [] && [ConfigStage, TileStage] + [EnhanceStage] == STAGES;
  }

  lemma Finishes(r0: Run, w: World, b: nat) returns (r: Run)
    requires IsRun(r0) && AllInTime(r0)
    requires r0.states[|r0.acts|] == Busy(w, b, Build(NewGen(w), []), map[], w.files.dirs[NewGen(w) := UNFINISHED])
    ensures IsRun(r) && AllInTime(r)
    ensures r.states[|r.acts|] == Busy(w, b, Unstage(NewGen(w)), map[], w.files.dirs[NewGen(w) := BUILT])
  {
    hide IsRun, AllInTime;
    var g, dirs := NewGen(w), w.files.dirs[NewGen(w) := BUILT];
    assert w.files.dirs[g := UNFINISHED][g := BUILT] == dirs;
    r := OneStep(r0, BMeta(b), Busy(w, b, Unstage(g), map[], dirs));
  }

  lemma Stages(r0: Run, w: World, b: nat) returns (r: Run)
    requires IsRun(r0) && AllInTime(r0)
    requires r0.states[|r0.acts|] == Busy(w, b, Unstage(NewGen(w)), map[], w.files.dirs[NewGen(w) := BUILT])
    ensures IsRun(r) && AllInTime(r)
    ensures r.states[|r.acts|] == Busy(w, b, Swap(NewGen(w)), map[Osm := NewGen(w)], w.files.dirs[NewGen(w) := BUILT])
  {
    hide IsRun, AllInTime;
    var g, dirs := NewGen(w), w.files.dirs[NewGen(w) := BUILT];
    r := OneStep(r0, BUnstage(b), Busy(w, b, Link(g), map[], dirs));
    r := OneStep(r, BLink(b), Busy(w, b, Swap(g), map[Osm := g], dirs));
  }

  /** A build up to the rename. */
  lemma BuildsToSwap(r0: Run, w: World, b: nat) returns (r: Run)
    requires Ready(w) && IsRun(r0) && AllInTime(r0) && r0.states[|r0.acts|] == Idle(w)
    ensures IsRun(r) && AllInTime(r)
    ensures r.states[|r.acts|] == Busy(w, b, Swap(NewGen(w)), map[Osm := NewGen(w)], w.files.dirs[NewGen(w) := BUILT])
  {
    hide *;
    r := Starts(r0, w, b);
    r := ListsNothing(r, w, b);
    r := Makes(r, w, b);
    r := RunsAll(r, w, b);
    r := Finishes(r, w, b);
    r := Stages(r, w, b);
  }

  lemma Swaps(r0: Run, w: World, b: nat) returns (r: Run)
    requires IsRun(r0) && AllInTime(r0)
    requires r0.states[|r0.acts|]
             == Busy(w, b, Swap(NewGen(w)), map[Osm := NewGen(w)], w.files.dirs[NewGen(w) := BUILT])
    ensures IsRun(r) && AllInTime(r) && r.states[|r.acts|] == Leaving(w, b)
  {
    hide IsRun, AllInTime;
    r := OneStep(r0, BSwap(b), Leaving(w, b));
  }

  lemma Leaves(r0: Run, w: World, b: nat) returns (r: Run)
    requires Ready(w) && IsRun(r0) && AllInTime(r0) && r0.states[|r0.acts|] == Leaving(w, b)
    ensures IsRun(r) && AllInTime(r) && r.states[|r.acts|] == Idle(Built(w))
  {
    hide IsRun, AllInTime;
    assert Leased(w, b).rows - {w.table.nextId} == w.table.rows;
    r := OneStep(r0, BLeave(b), Idle(Built(w)));
  }

  /** And to its end. */
  lemma Builds(r0: Run, w: World, b: nat) returns (r: Run)
    requires Ready(w) && IsRun(r0) && AllInTime(r0) && r0.states[|r0.acts|] == Idle(w)
    ensures IsRun(r) && AllInTime(r) && r.states[|r.acts|] == Idle(Built(w))
  {
    hide *;
    r := BuildsToSwap(r0, w, b);
    r := Swaps(r, w, b);
    r := Leaves(r, w, b);
  }

  lemma NewRun() returns (r: Run)
    ensures IsRun(r) && AllInTime(r) && r.states[|r.acts|] == Idle(NEW_WORLD) && Ready(NEW_WORLD)
  {
    r := Run([Idle(NEW_WORLD)], []);
    assert Reap(EMPTY, 0) == EMPTY;
  }

  // ----- Once the TTL has passed, another builder prunes -----

  /**
   * Time 1 has come, so that every lease of time 0 has expired, and there is one generation
   * besides the current one.
   */
  ghost predicate Stale(s: State, b: nat, g: Gen) {
    && s.cfg == CFG && s.now == 1 && b !in s.builders
    && Reap(s.table, 1).rows == map[]
    && g.provider == Osm && Others(s.files.dirs, Osm, LinkOf(s.files, Osm)) == {g}
  }

  function OwnRow(b: nat): Row {
    Row(ProviderDir(Osm), Exclusive, BuilderProc(b), 1, 2)
  }

  function PruneRow(b: nat, g: Gen): Row {
    Row(GenerationDir(g), Exclusive, BuilderProc(b), 1, 2)
  }

  /** The second builder, at `phase`, has its provider lease. */
  function Pruning(s: State, b: nat, phase: Phase): State {
    var id := s.table.nextId;
    s.(table := Table(map[id := OwnRow(b)], id + 1), builders := s.builders[b := Builder(Osm, Lease(id, 1), phase)])
  }

  /** And the lease of the generation it removes. */
  function Removing(s: State, b: nat, g: Gen, phase: Phase, dirs: map<Gen, Dir>): State {
    var id := s.table.nextId;
    Pruning(s, b, phase).(table := Table(map[id := OwnRow(b), id + 1 := PruneRow(b, g)], id + 2),
                          files := s.files.(dirs := dirs))
  }

  /** What there is to prune, as seen from `s`. */
  function JobOf(s: State, g: Gen): PruneJob {
    PruneJob(LinkOf(s.files, Osm), {}, [g])
  }

  function Pruned(s: State, b: nat, g: Gen): State {
    Removing(s, b, g, Unlock(JobOf(s, g), Lease(s.table.nextId + 1, 1)), Without(s.files.dirs, g))
  }

  lemma StartsLate(r0: Run, s: State, b: nat, g: Gen) returns (r: Run)
    requires IsRun(r0) && Stale(s, b, g) && r0.states[|r0.acts|] == s
    ensures IsRun(r) && r.states[|r.acts|] == Pruning(s, b, List(LinkOf(s.files, Osm)))
    ensures AllInTime(r0) && s.builders == map[] ==> AllInTime(r)
  {
    hide IsRun, AllInTime;
    r := OneStep(r0, BStart(b, Osm, 1), Pruning(s, b, Look));
    r := OneStep(r, BLook(b), Pruning(s, b, List(LinkOf(s.files, Osm))));
  }

  lemma ListingOfOne(s: State, b: nat, g: Gen)
    requires Stale(s, b, g)
    ensures s.cfg == CFG && s.now == 1 && g.provider == Osm && b !in s.builders
    ensures IsListing([g], Others(s.files.dirs, Osm, LinkOf(s.files, Osm)))
    ensures PlanPrune(CFG, LinkOf(s.files, Osm), [g]) == JobOf(s, g)
  {
    assert {g} == (set g' | g' in [g]);
    assert [g][..0] == [] && [g][0..] == [g];
  }

  lemma PlansOne(r0: Run, s: State, b: nat, g: Gen) returns (r: Run)
    requires IsRun(r0) && Stale(s, b, g) && r0.states[|r0.acts|] == Pruning(s, b, List(LinkOf(s.files, Osm)))
    ensures IsRun(r) && r.states[|r.acts|] == Pruning(s, b, Prune(JobOf(s, g)))
    ensures AllInTime(r0) && s.builders == map[] ==> AllInTime(r)
  {
    hide IsRun, AllInTime;
    ListingOfOne(s, b, g);
    hide PlanPrune, IsListing, Others, Stale;
    r := OneStep(r0, BList(b, [g]), Pruning(s, b, Prune(JobOf(s, g))));
  }

  lemma LeasesOne(r0: Run, s: State, b: nat, g: Gen) returns (r: Run)
    requires IsRun(r0) && Stale(s, b, g) && r0.states[|r0.acts|] == Pruning(s, b, Prune(JobOf(s, g)))
    ensures IsRun(r)
    ensures r.states[|r.acts|]
            == Removing(s, b, g, Remove(JobOf(s, g), Lease(s.table.nextId + 1, 1)), s.files.dirs)
    ensures AllInTime(r0) && s.builders == map[] ==> AllInTime(r)
  {
    hide IsRun, AllInTime;
    var id := s.table.nextId;
    var held := Table(map[id := OwnRow(b)], id + 1);
    assert Reap(held, 1) == held;
    assert s.files.(dirs := s.files.dirs) == s.files;
    r := OneStep(r0, BTry(b, 1, false), Removing(s, b, g, Remove(JobOf(s, g), Lease(id + 1, 1)), s.files.dirs));
  }

  lemma RemovesOne(r0: Run, s: State, b: nat, g: Gen) returns (r: Run)
    requires IsRun(r0) && Stale(s, b, g)
    requires r0.states[|r0.acts|]
             == Removing(s, b, g, Remove(JobOf(s, g), Lease(s.table.nextId + 1, 1)), s.files.dirs)
    ensures IsRun(r) && r.states[|r.acts|] == Pruned(s, b, g)
    ensures AllInTime(r0) && s.builders == map[] ==> AllInTime(r)
  {
    hide IsRun, AllInTime;
    r := OneStep(r0, BGone(b), Pruned(s, b, g));
  }

  lemma PrunesLate(r0: Run, s: State, b: nat, g: Gen) returns (r: Run)
    requires IsRun(r0) && Stale(s, b, g) && r0.states[|r0.acts|] == s
    ensures IsRun(r) && r.states[|r.acts|] == Pruned(s, b, g)
    ensures AllInTime(r0) && s.builders == map[] ==> AllInTime(r)
  {
    hide *;
    r := StartsLate(r0, s, b, g);
    r := PlansOne(r, s, b, g);
    r := LeasesOne(r, s, b, g);
    r := RemovesOne(r, s, b, g);
  }

  // ----- A builder whose provider lease has expired -----

  const G := Gen(Osm, 0)

  /**
   * A run in which the first builder, past the TTL of its lease, moves the link to the generation
   * that the second builder has just removed.
   */
  lemma OverlapLeavesLinkDangling() returns (r: Run)
    ensures IsRun(r) && !RunsInTime(r, Osm)
    ensures var f := r.states[|r.acts|].files;
            LinkOf(f, Osm) == Some(G) && Resolved(f, Osm) == None
  {
    hide IsRun, AllInTime;
    r := NewRun();
    r := BuildsToSwap(r, NEW_WORLD, 0);
    var s := Busy(NEW_WORLD, 0, Swap(G), map[Osm := G], map[G := BUILT]).(now := 1, stamp := 1);
    r := OneStep(r, Tick(1, 1), s);
    assert Stale(s, 1, G) by { assert Others(s.files.dirs, Osm, None) == {G}; }
    r := PrunesLate(r, s, 1, G);
    r := SwapsLate(r, s);
  }

  lemma SwapsLate(r0: Run, s: State) returns (r: Run)
    requires IsRun(r0) && s == Busy(NEW_WORLD, 0, Swap(G), map[Osm := G], map[G := BUILT]).(now := 1, stamp := 1)
    requires r0.states[|r0.acts|] == Pruned(s, 1, G)
    ensures IsRun(r) && !RunsInTime(r, Osm)
    ensures var f := r.states[|r.acts|].files;
            LinkOf(f, Osm) == Some(G) && Resolved(f, Osm) == None
  {
    hide IsRun, AllInTime, RunsInTime;
    var last := Apply(Pruned(s, 1, G), BSwap(0));
    r := OneStep(r0, BSwap(0), last);
    assert !InTime(last, Osm) by { assert !Live(last, last.builders[0].lease); }
  }

  // ----- A worker whose shared lease has expired -----

  const READER := Worker(Osm, 1, Read(G, Lease(1, 0)))
  const READER_TABLE := Table(map[1 := Row(GenerationDir(G), Shared, WorkerProc(0), 0, 1)], 2)
  const READ_WORLD := Built(NEW_WORLD).(table := READER_TABLE, workers := map[0 := READER])

  /** A worker comes to read the only generation. */
  lemma Reads(r0: Run) returns (r: Run)
    requires IsRun(r0) && AllInTime(r0) && r0.states[|r0.acts|] == Idle(Built(NEW_WORLD))
    ensures IsRun(r) && AllInTime(r) && r.states[|r.acts|] == Idle(READ_WORLD)
  {
    hide IsRun, AllInTime;
    r := Resolves(r0);
    hide Built;
    assert Reap(Table(map[], 1), 0) == Table(map[], 1);
    var checking := Worker(Osm, 1, Check(G, Lease(1, 0)));
    var w := World(0, READER_TABLE, Files(map[Osm := G], map[], map[G := BUILT], map[G := BUILT]), map[0 := checking]);
    r := OneStep(r, WTry(0, 0, false), Idle(w));
    r := OneStep(r, WCheck(0), Idle(READ_WORLD));
  }

  lemma Resolves(r0: Run) returns (r: Run)
    requires IsRun(r0) && AllInTime(r0) && r0.states[|r0.acts|] == Idle(Built(NEW_WORLD))
    ensures IsRun(r) && AllInTime(r)
    ensures r.states[|r.acts|]
            == Idle(World(0, Table(map[], 1), Files(map[Osm := G], map[], map[G := BUILT], map[G := BUILT]),
                          map[0 := Worker(Osm, 1, Lock(G))]))
  {
    hide IsRun, AllInTime;
    var w := Built(NEW_WORLD);
    r := OneStep(r0, WStart(0, Osm), Idle(w.(workers := map[0 := Worker(Osm, 2, Resolve)])));
    r := OneStep(r, WResolve(0), Idle(w.(workers := map[0 := Worker(Osm, 1, Lock(G))])));
  }

  /**
   * A run in which every builder is in time, and in which the generation that a worker reads is
   * removed while it reads: the worker has outlived its shared lease.
   */
  lemma LateReaderLosesItsGeneration() returns (r: Run)
    ensures IsRun(r) && AllInTime(r)
    ensures var s := r.states[|r.acts|];
            && 0 in s.workers && s.workers[0].spot.Read? && s.workers[0].spot.gen == G
            && !Live(s, s.workers[0].spot.lease)
            && G !in s.files.dirs
  {
    hide IsRun, AllInTime;
    r := NewRun();
    r := Builds(r, NEW_WORLD, 0);
    r := Reads(r);
    r := OneStep(r, Tick(0, 1), Idle(READ_WORLD.(stamp := 1)));
    r := BuildsNext(r);
    var w := Built(READ_WORLD.(stamp := 1));
    var s := Idle(w).(now := 1);
    r := OneStep(r, Tick(1, 1), s);
    assert Stale(s, 1, G) by { assert Others(s.files.dirs, Osm, Some(Gen(Osm, 1))) == {G}; }
    r := PrunesLate(r, s, 1, G);
  }

  lemma BuildsNext(r0: Run) returns (r: Run)
    requires IsRun(r0) && AllInTime(r0) && r0.states[|r0.acts|] == Idle(READ_WORLD.(stamp := 1))
    ensures IsRun(r) && AllInTime(r) && r.states[|r.acts|] == Idle(Built(READ_WORLD.(stamp := 1)))
  {
    var w := READ_WORLD.(stamp := 1);
    assert Ready(w) by {
      hide IsRun, AllInTime;
      assert Reap(w.table, 0) == w.table;
      assert Others(w.files.dirs, Osm, Some(G)) == {};
    }
    hide *;
    r := Builds(r0, w, 0);
  }
}
