/** `create_package` and `update_all_packages`: the worker's part, with its view of a changing deployment. */
module Packages {
  import opened Common
  import opened GraphLocks
  import opened LeaseProtocol
  import opened GenerationSafety
  import opened ReaderSafety
  import opened Interference
  import opened GraphDeployment
  import opened PackageJobs
  import opened Bboxes
  import T = Tiles

  /** What `create_package` may raise: the exceptions it controls, and any other. */
  datatype Exception = Http(error: HttpException) | Unexpected

  const HTTP_404_NOT_FOUND := 404
  const HTTP_500_INTERNAL_SERVER_ERROR := 500

  const NO_USER := Http(HttpException(HTTP_404_NOT_FOUND, "No user with specified ID found."))
  const NO_JOB := Http(HttpException(HTTP_404_NOT_FOUND, "No job with specified ID found."))
  const NO_GRAPH := Http(HttpException(HTTP_500_INTERNAL_SERVER_ERROR, "No graph available"))
  const NO_TILES := Http(HttpException(HTTP_404_NOT_FOUND, "No Valhalla tiles"))
  const NO_TILES_IN_BBOX := Http(HttpException(HTTP_404_NOT_FOUND, "No Valhalla tiles in bbox"))

  /** The JSON file beside the ZIP. */
  datatype Meta = Meta(jobId: nat, provider: Provider, name: string, description: string, extent: string,
                       lastModified: int)

  /** The directory of a package: the content of each entry of its ZIP, and the metadata. */
  datatype Package = Package(zip: Option<map<string, nat>>, meta: Option<Meta>)

  /** All packages but those in these directories are the same. */
  ghost predicate SameOutside(was: map<string, Package>, now: map<string, Package>, dirs: set<string>) {
    forall dir | dir !in dirs :: (dir in now <==> dir in was) && (dir in now ==> now[dir] == was[dir])
  }

  lemma SameAtFirst(packages: map<string, Package>, dirs: set<string>)
    ensures SameOutside(packages, packages, dirs)
  {
  }

  lemma SameOutsideMore(was: map<string, Package>, now: map<string, Package>, dirs: set<string>, more: set<string>)
    requires SameOutside(was, now, dirs) && dirs <= more
    ensures SameOutside(was, now, more)
  {
  }

  lemma SameWithout(was: map<string, Package>, now: map<string, Package>, dir: string)
    requires SameOutside(was, now, {dir})
    ensures SameOutside(was, now - {dir}, {dir})
  {
  }

  lemma SameOutsideBoth(a: map<string, Package>, b: map<string, Package>, c: map<string, Package>,
                        dirs: set<string>, more: set<string>, all: set<string>)
    requires SameOutside(a, b, dirs) && SameOutside(b, c, more) && all == dirs + more
    ensures SameOutside(a, c, all)
  {
  }

  const ARCHIVE_ROOT := "valhalla_tiles/"

  /** The path up to its last slash. */
  function Head(path: string): string {
    if |path| == 0 || path[|path| - 1] == '/' then path else Head(path[..|path| - 1])
  }

  function WithoutSlashes(path: string): string {
    if |path| == 0 || path[|path| - 1] != '/' then path else WithoutSlashes(path[..|path| - 1])
  }

  /** `os.path.dirname` */
  function Dirname(path: string): string {
    var head := Head(path);
    if WithoutSlashes(head) == "" then head else WithoutSlashes(head)
  }

  lemma {:induction false} HeadOf(head: string, base: string)
    requires '/' !in base && (head == "" || head[|head| - 1] == '/')
    ensures Head(head + base) == head
  {
    if |base| == 0 {
      assert head + base == head;
      if head == "" { assert Head(head) == ""; }
    } else {
      var path := head + base;
      assert path[|path| - 1] == base[|base| - 1];
      assert base[|base| - 1] in base;
      assert path[..|path| - 1] == head + base[..|base| - 1];
      HeadOf(head, base[..|base| - 1]);
    }
  }

  ghost predicate AllSlashes(s: string) {
    forall i | 0 <= i < |s| :: s[i] == '/'
  }

  lemma {:induction false} SlashesOff(dir: string, slashes: string)
    requires AllSlashes(slashes) && (dir == "" || dir[|dir| - 1] != '/')
    ensures WithoutSlashes(dir + slashes) == dir
  {
    if |slashes| == 0 {
      assert dir + slashes == dir;
    } else {
      var path := dir + slashes;
      assert path[|path| - 1] == slashes[|slashes| - 1];
      assert path[..|path| - 1] == dir + slashes[..|slashes| - 1];
      SlashesOff(dir, slashes[..|slashes| - 1]);
    }
  }

  /** Of a directory, slashes and a name, it is the directory; of a name at the root, the slashes. */
  lemma DirnameOf(dir: string, slashes: string, base: string)
    requires '/' !in base && AllSlashes(slashes)
    requires dir != "" ==> dir[|dir| - 1] != '/' && slashes != ""
    ensures Dirname(dir + slashes + base) == if dir == "" then slashes else dir
  {
    var head := dir + slashes;
    if head != "" {
      assert head[|head| - 1] == slashes[|slashes| - 1];
    }
    HeadOf(head, base);
    SlashesOff(dir, slashes);
  }

  /** The packages of two jobs are apart exactly if their ZIPs are in different directories. */
  lemma PackagesAreApart(dir: string, base: string, other: string, base': string)
    requires '/' !in base && '/' !in base'
    requires dir != "" && dir[|dir| - 1] != '/' && other != "" && other[|other| - 1] != '/'
    ensures Dirname(dir + "/" + base) == Dirname(other + "/" + base') <==> dir == other
  {
    DirnameOf(dir, "/", base);
    DirnameOf(other, "/", base');
  }

  /** The ZIP holds exactly these files, each under its path below the root. */
  ghost predicate Holds(zip: map<string, nat>, tiles: map<string, nat>, paths: set<string>) {
    && (forall path | path in paths ::
          ARCHIVE_ROOT + path in zip && path in tiles && zip[ARCHIVE_ROOT + path] == tiles[path])
    && (forall entry | entry in zip :: entry in set path | path in paths :: ARCHIVE_ROOT + path)
  }

  /** The tiles of a generation that meet the bbox. */
  ghost function TilesMeeting(tiles: map<string, nat>, bbox: T.Bbox): set<string> {
    set path | path in tiles && T.GetTileBbox(path).Ok? && T.Meet(T.GetTileBbox(path).value, bbox)
  }

  lemma NothingHeld(tiles: map<string, nat>)
    ensures Holds(map[], tiles, {})
  {
  }

  lemma OneMoreHeld(zip: map<string, nat>, tiles: map<string, nat>, paths: set<string>, path: string)
    requires Holds(zip, tiles, paths) && path in tiles
    ensures Holds(zip[ARCHIVE_ROOT + path := tiles[path]], tiles, paths + {path})
  {
    var zip' := zip[ARCHIVE_ROOT + path := tiles[path]];
    forall p | p in paths + {path} ensures ARCHIVE_ROOT + p in zip' && zip'[ARCHIVE_ROOT + p] == tiles[p] {
      if ARCHIVE_ROOT + p == ARCHIVE_ROOT + path {
        assert (ARCHIVE_ROOT + p)[|ARCHIVE_ROOT|..] == p && (ARCHIVE_ROOT + path)[|ARCHIVE_ROOT|..] == path;
      }
    }
    forall entry | entry in zip' ensures entry in set p | p in paths + {path} :: ARCHIVE_ROOT + p {
      if entry in zip {
        assert entry in set p | p in paths :: ARCHIVE_ROOT + p;
      }
    }
  }

  // ----- Reading under the lease -----

  /** The worker is reading; since `r0` it has changed nothing on the volume, and it owns no rows but these. */
  ghost predicate Reading(d: Deployment, w: nat, me: Worker, r0: Run, f0: Files, rows: set<nat>)
    reads d`now, d`stamp, d`links, d`staged, d`dirs, d`published, d`builders, d`workers, d`run, d.locks
  {
    && d.Valid() && me.spot.Read? && PlaceOf(d.Abs(), WorkerProc(w)) == WorkerAt(Some(me))
    && Untouched(r0, f0, d.run, d.Volume(), WorkerProc(w), None)
    && OwnRows(d.locks.Contents(), WorkerProc(w)) <= rows
  }

  /** All builders so far were in time, and the worker's lease is live. */
  ghost predicate Covered(d: Deployment, me: Worker)
    requires me.spot.Read?
    reads d`now, d`stamp, d`links, d`staged, d`dirs, d`published, d`builders, d`workers, d`run, d.locks
  {
    RunsInTime(d.run, me.provider) && Live(d.Abs(), me.spot.lease)
  }

  /** In time and with a live lease, the generation holds what it held at first. */
  ghost predicate Sees(d: Deployment, me: Worker, seen: Dir)
    requires me.spot.Read?
    reads d`now, d`stamp, d`links, d`staged, d`dirs, d`published, d`builders, d`workers, d`run, d.locks
  {
    Covered(d, me) ==> me.spot.gen in d.dirs && d.dirs[me.spot.gen] == seen
  }

  lemma SeenThroughout(r: Run, r': Run, w: nat, me: Worker)
    requires |r.states| == |r.acts| + 1 && |r'.states| == |r'.acts| + 1 && |r.acts| <= |r'.acts|
    requires IsRun(r') && Extends(r, r') && RunsInTime(r', me.provider) && me.spot.Read?
    requires PlaceOf(r.states[|r.acts|], WorkerProc(w)) == WorkerAt(Some(me))
    requires PlaceOf(r'.states[|r'.acts|], WorkerProc(w)) == WorkerAt(Some(me))
    requires Live(r'.states[|r'.acts|], me.spot.lease)
    ensures RunsInTime(r, me.provider) && Live(r.states[|r.acts|], me.spot.lease)
    ensures var g, f, f' := me.spot.gen, r.states[|r.acts|].files, r'.states[|r'.acts|].files;
            g in f.dirs && g in f'.dirs && f.dirs[g] == f'.dirs[g]
  {
    hide IsRun;
    InTimeBefore(r, r', me.provider);
    assert r'.states[|r.acts|] == r.states[|r.acts|];
    ClockMovesForward(r', |r.acts|, |r'.acts|);
    ReadsAreOneSnapshot(r', |r.acts|, |r'.acts|, w);
  }

  /** The others act while the worker reads. */
  method LookAway(d: Deployment, w: nat, ghost me: Worker, ghost r0: Run, ghost f0: Files, ghost rows: set<nat>,
                  ghost seen: Dir)
    requires Reading(d, w, me, r0, f0, rows) && Sees(d, me, seen)
    modifies d`now, d`stamp, d`monotonic, d`links, d`staged, d`dirs, d`published, d`builders, d`workers, d`run, d.locks
    ensures Reading(d, w, me, r0, f0, rows) && Sees(d, me, seen)
    ensures Covered(d, me) ==> old(Covered(d, me))
  {
    hide IsRun, StepOk, Apply, Enabled, OwnRows, Untouched, RunsInTime, OnlyOthers, SameFor, Extends;
    ghost var r1, f1 := d.run, d.Volume();
    d.Others(WorkerProc(w));
    UntouchedTransitive(r0, f0, r1, f1, d.run, d.Volume(), WorkerProc(w), None);
    UntouchedExtends(r1, f1, d.run, d.Volume(), WorkerProc(w), None);
    if Covered(d, me) {
      SeenThroughout(r1, d.run, w, me);
    }
  }

  /** `rglob("*.gph")`; a directory that is gone has no files. */
  method ListTiles(d: Deployment, w: nat, me: Worker, ghost r0: Run, ghost f0: Files, ghost rows: set<nat>,
                   ghost seen: Dir)
    returns (paths: seq<string>)
    requires me.spot.Read? && Reading(d, w, me, r0, f0, rows) && Sees(d, me, seen)
    modifies d`now, d`stamp, d`monotonic, d`links, d`staged, d`dirs, d`published, d`builders, d`workers, d`run, d.locks
    ensures Reading(d, w, me, r0, f0, rows) && Sees(d, me, seen)
    ensures Covered(d, me) ==> forall path :: path in paths <==> path in seen.tiles
  {
    hide IsRun, StepOk, Apply, Enabled, OwnRows, Untouched, RunsInTime, Covered, Reading;
    LookAway(d, w, me, r0, f0, rows, seen);
    var left := if me.spot.gen in d.dirs then d.dirs[me.spot.gen].tiles.Keys else {};
    ghost var all := left;
    paths := [];
    while left != {}
      invariant forall path :: path in all <==> path in paths || path in left
      decreases |left|
    {
      var path :| path in left;
      paths := paths + [path];
      left := left - {path};
    }
  }

  // ----- What packing a generation comes to -----

  /** Every path is that of a tile. */
  ghost predicate AllReadable(tiles: map<string, nat>) {
    forall path | path in tiles :: T.GetTileBbox(path).Ok?
  }

  /** The bbox is one, every path can be read, and some tile meets the bbox. */
  ghost predicate CanChoose(tiles: map<string, nat>, bbox: string, float: string -> Option<real>) {
    var box := SplitBbox(bbox, float);
    box.Ok? && box.value.Some? && AllReadable(tiles) && TilesMeeting(tiles, box.value.value) != {}
  }

  /** Why no tiles were chosen: there are none, the bbox is bad or missing, a path cannot be read, or none meets it. */
  ghost predicate NotChosen(tiles: map<string, nat>, bbox: string, float: string -> Option<real>, e: Exception) {
    var box := SplitBbox(bbox, float);
    if tiles == map[] then e == NO_TILES
    else if box.Raised? then e == Http(box.error)
    else if box.value.None? || !AllReadable(tiles) then e == Unexpected
    else e == NO_TILES_IN_BBOX && TilesMeeting(tiles, box.value.value) == {}
  }

  /** The exceptions that are controlled; a 400 is the one of a bad bbox. */
  ghost predicate Controlled(bbox: string, float: string -> Option<real>, e: Exception) {
    || e == NO_GRAPH || e == NO_TILES || e == NO_TILES_IN_BBOX
    || (SplitBbox(bbox, float).Raised? && e == Http(SplitBbox(bbox, float).error))
  }

  /** What is to be packed; `canZip` says that the ZIP can be written. */
  datatype Order = Order(provider: Provider, bbox: string, float: string -> Option<real>, canZip: bool)

  datatype Packed = Packed(box: T.Bbox, zip: map<string, nat>)

  /** What packing these tiles comes to: the ZIP holds those that meet the bbox, or there is a reason. */
  ghost predicate PackingOk(tiles: map<string, nat>, order: Order, result: Result<Packed, Exception>) {
    match result
    case Ok(packed) =>
      && order.canZip && CanChoose(tiles, order.bbox, order.float)
      && SplitBbox(order.bbox, order.float) == Ok(Some(packed.box))
      && Holds(packed.zip, tiles, TilesMeeting(tiles, packed.box))
    case Raised(e) =>
      if CanChoose(tiles, order.bbox, order.float) then e == Unexpected && !order.canZip
      else NotChosen(tiles, order.bbox, order.float, e)
  }

  /** Each entry of the ZIP is a file of the generation, below one directory. */
  lemma ZipEntries(zip: map<string, nat>, tiles: map<string, nat>, paths: set<string>)
    requires Holds(zip, tiles, paths)
    ensures forall path | path in paths ::
              path in tiles && "valhalla_tiles/" + path in zip && zip["valhalla_tiles/" + path] == tiles[path]
    ensures forall entry | entry in zip ::
              |entry| >= 15 && entry[..15] == "valhalla_tiles/" && entry[15..] in paths
  {
    forall entry | entry in zip
      ensures |entry| >= 15 && entry[..15] == "valhalla_tiles/" && entry[15..] in paths
    {
      var path :| path in paths && entry == ARCHIVE_ROOT + path;
      assert entry[15..] == path;
    }
  }

  lemma HoldsOnlyOne(zip: map<string, nat>, zip': map<string, nat>, tiles: map<string, nat>, paths: set<string>)
    requires Holds(zip, tiles, paths) && Holds(zip', tiles, paths)
    ensures zip == zip'
  {
    forall entry ensures entry in zip <==> entry in zip' {
      if entry in zip || entry in zip' {
        assert entry in set path | path in paths :: ARCHIVE_ROOT + path;
      }
    }
    forall entry | entry in zip ensures zip[entry] == zip'[entry] {
      assert entry in set path | path in paths :: ARCHIVE_ROOT + path;
    }
  }

  /** It comes to nothing else: in particular it succeeds if the tiles can be chosen and the ZIP can be written. */
  lemma PackingIsDetermined(tiles: map<string, nat>, order: Order, result: Result<Packed, Exception>,
                            other: Result<Packed, Exception>)
    requires PackingOk(tiles, order, result) && PackingOk(tiles, order, other)
    ensures result == other
    ensures result.Ok? <==> order.canZip && CanChoose(tiles, order.bbox, order.float)
  {
    hide Holds, TilesMeeting, SplitBbox;
    if result.Ok? && other.Ok? {
      HoldsOnlyOne(result.value.zip, other.value.zip, tiles, TilesMeeting(tiles, result.value.box));
    }
  }

  /** The tiles to be packed; an exception that is controlled says that the bbox is bad or meets no tile. */
  method ChooseTiles(d: Deployment, w: nat, me: Worker, bbox: string, float: string -> Option<real>,
                     ghost r0: Run, ghost f0: Files, ghost rows: set<nat>, ghost seen: Dir)
    returns (r: Result<(T.Bbox, set<string>), Exception>)
    requires me.spot.Read? && Reading(d, w, me, r0, f0, rows) && Sees(d, me, seen)
    modifies d`now, d`stamp, d`monotonic, d`links, d`staged, d`dirs, d`published, d`builders, d`workers, d`run, d.locks
    ensures Reading(d, w, me, r0, f0, rows) && Sees(d, me, seen)
    ensures r.Ok? ==> SplitBbox(bbox, float) == Ok(Some(r.value.0)) && r.value.1 != {}
    ensures r.Ok? && Covered(d, me) ==>
              r.value.1 == TilesMeeting(seen.tiles, r.value.0) && CanChoose(seen.tiles, bbox, float)
    ensures r.Raised? && Covered(d, me) ==>
              NotChosen(seen.tiles, bbox, float, r.error) && !CanChoose(seen.tiles, bbox, float)
    ensures r.Raised? && r.error.Http? ==> Controlled(bbox, float, r.error) && r.error != NO_GRAPH
  {
    hide IsRun, StepOk, Apply, Enabled, OwnRows, Untouched, RunsInTime, Reading, SplitBbox, Covered, Sees, TilesMeeting,
         AllReadable, Holds;
    var valhallaTiles := ListTiles(d, w, me, r0, f0, rows, seen);
    NoTilesAtAll(seen.tiles, valhallaTiles);
    if |valhallaTiles| == 0 {
      return Raised(NO_TILES);
    }
    SplitBboxChecks(bbox, float);
    var box := SplitBbox(bbox, float);
    if box.Raised? {
      return Raised(Http(box.error));
    }
    if box.value.None? {
      return Raised(Unexpected);
    }
    var tilePaths := T.GetTilesWithBbox(valhallaTiles, box.value.value);
    ListedReadable(seen.tiles, valhallaTiles);
    if tilePaths.Raised? {
      return Raised(Unexpected);
    }
    ListedSelection(seen.tiles, valhallaTiles, box.value.value);
    if tilePaths.value == {} {
      return Raised(NO_TILES_IN_BBOX);
    }
    return Ok((box.value.value, tilePaths.value));
  }

  /** The states of the run that show where a package came from. */
  datatype Evidence = Evidence(gen: Gen, lease: Lease, seen: nat, granted: nat, checked: nat, read: nat)

  /**
   * What was packed, or why nothing was, is due to one generation, which the link named before and
   * after its lease was granted. If the builders were in time, and the lease was still live in the
   * end, it is that generation as published: the ZIP holds its tiles that meet the bbox, or one of
   * the reasons for a failure holds of it.
   */
  ghost predicate PackedFrom(cfg: Settings, r0: Run, r: Run, w: nat, order: Order, result: Result<Packed, Exception>,
                             ev: Evidence) {
    && NamedBeforeAndAfter(r, |r0.acts|, w, order.provider, ev.gen, ev.seen, ev.granted, ev.checked)
    && ev.checked <= ev.read < |r.states|
    && w in r.states[ev.read].workers && r.states[ev.read].workers[w].spot == Read(ev.gen, ev.lease)
    && (RunsInTime(r, order.provider) && Live(r.states[ev.read], ev.lease) ==>
          var f := r.states[ev.read].files;
          && AsPublished(f, ev.gen) && Whole(cfg, f.dirs[ev.gen])
          && PackingOk(f.dirs[ev.gen].tiles, order, result))
  }

  lemma PackedStays(cfg: Settings, r0: Run, r: Run, r': Run, w: nat, order: Order, result: Result<Packed, Exception>,
                    ev: Evidence)
    requires PackedFrom(cfg, r0, r, w, order, result, ev) && Extends(r, r')
    ensures PackedFrom(cfg, r0, r', w, order, result, ev)
  {
    hide PackingOk, Resolved, Whole, AsPublished;
    if RunsInTime(r', order.provider) { InTimeBefore(r, r', order.provider); }
    StatesAreKept(r, r', ev.seen);
    StatesAreKept(r, r', ev.granted);
    StatesAreKept(r, r', ev.checked);
    StatesAreKept(r, r', ev.read);
  }

  /** The worker sleeps only between two requests for a generation, and no longer than the timeouts of all attempts. */
  ghost predicate WaitsForGraph(r: Run, from: nat, was: seq<Nap>, naps: seq<Nap>, w: nat) {
    && Polls(r, from, was, naps, WorkerProc(w))
    && Slept(naps) <= Slept(was) + PatienceFor(RESOLVE_ATTEMPTS, SHARED_LOCK_TIMEOUT)
  }

  lemma WaitsNot(r: Run, from: nat, naps: seq<Nap>, w: nat)
    ensures WaitsForGraph(r, from, naps, naps, w)
  {
    NoNaps(r, from, naps, WorkerProc(w));
  }

  /** No lease was to be had on a generation, for one of these reasons. */
  ghost predicate NoGraph(r: Run, w: nat, p: Provider, from: nat, causes: seq<Cause>) {
    && |causes| == RESOLVE_ATTEMPTS && from < |r.states|
    && CausesOk(r, w, p, from, SHARED_LOCK_TIMEOUT, causes) && MayRaise(r, w, p, from, SHARED_LOCK_TIMEOUT, causes)
  }

  /** From its re-check on the worker reads. */
  lemma StartReading(d: Deployment, w: nat, me: Worker, held: Dir)
    requires d.Valid() && w in d.workers && d.workers[w] == me && me.spot.Read?
    requires held == if me.spot.gen in d.dirs then d.dirs[me.spot.gen] else EMPTY_DIR
    ensures Reading(d, w, me, d.run, d.Volume(), OwnRows(d.locks.Contents(), WorkerProc(w))) && Sees(d, me, held)
  {
    UntouchedAtFirst(d.run, d.Volume(), WorkerProc(w), None);
    if Covered(d, me) {
      ReadersReadFinishedGenerations(d.run, |d.run.acts|, w);
    }
  }

  lemma StopReading(d: Deployment, w: nat, me: Worker, r0: Run, f0: Files, rows: set<nat>)
    requires Reading(d, w, me, r0, f0, rows)
    ensures d.Valid() && w in d.workers && d.workers[w] == me && me.spot.Read?
    ensures Untouched(r0, f0, d.run, d.Volume(), WorkerProc(w), None)
    ensures OwnRows(d.locks.Contents(), WorkerProc(w)) <= rows
  {
  }

  /** What has been packed when the worker is through with reading. */
  lemma PackedNow(d: Deployment, w: nat, me: Worker, r0: Run, r1: Run, order: Order, result: Result<Packed, Exception>,
                  held: Dir, rows: set<nat>, f1: Files, ev: Evidence)
    requires me.provider == order.provider && me.spot == Read(ev.gen, ev.lease) && Reading(d, w, me, r1, f1, rows)
    requires Sees(d, me, held)
    requires |r1.states| == |r1.acts| + 1
    requires NamedBeforeAndAfter(r1, |r0.acts|, w, order.provider, ev.gen, ev.seen, ev.granted, ev.checked)
    requires ev.read == |d.run.acts|
    requires Covered(d, me) ==> PackingOk(held.tiles, order, result)
    ensures PackedFrom(d.cfg, r0, d.run, w, order, result, ev)
  {
    hide IsRun, PackingOk, Resolved;
    StatesAreKept(r1, d.run, ev.seen);
    StatesAreKept(r1, d.run, ev.granted);
    StatesAreKept(r1, d.run, ev.checked);
    if Covered(d, me) {
      ReadersReadFinishedGenerations(d.run, |d.run.acts|, w);
    }
  }

  /** Whether accesses to the files of a package raise: to its ZIP, and to the metadata. */
  datatype FileErrors = FileErrors(zip: bool, meta: bool)

  /** How `create_package` for a known job ends, and why. */
  ghost predicate OutcomeOk(cfg: Settings, r0: Run, r: Run, w: nat, order: Order, errors: FileErrors,
                            raised: Option<Exception>, packed: Packed, ev: Evidence, causes: seq<Cause>) {
    match raised
    case None => !errors.meta && order.canZip && PackedFrom(cfg, r0, r, w, order, Ok(packed), ev)
    case Some(e) =>
      if e == NO_GRAPH then NoGraph(r, w, order.provider, |r0.acts|, causes)
      else
        || (e == Unexpected && errors.meta && PackedFrom(cfg, r0, r, w, order, Ok(packed), ev))
        || PackedFrom(cfg, r0, r, w, order, Raised(e), ev)
  }

  /**
   * Once a generation was held, and in time and with its lease live until the tiles were packed, the
   * package is made exactly if the files can be written and the tiles can be chosen.
   */
  lemma PackedExactlyWhen(cfg: Settings, r0: Run, r: Run, w: nat, order: Order, errors: FileErrors,
                          raised: Option<Exception>, packed: Packed, ev: Evidence, causes: seq<Cause>)
    requires OutcomeOk(cfg, r0, r, w, order, errors, raised, packed, ev, causes) && raised != Some(NO_GRAPH)
    requires RunsInTime(r, order.provider) && ev.read < |r.states| && Live(r.states[ev.read], ev.lease)
    ensures var f := r.states[ev.read].files;
            && AsPublished(f, ev.gen)
            && (raised == None <==>
                order.canZip && !errors.meta && CanChoose(f.dirs[ev.gen].tiles, order.bbox, order.float))
  {
    hide Holds, TilesMeeting, SplitBbox, CanChoose, NotChosen, NamedBeforeAndAfter, Whole;
  }

  /** What the worker sees at a moment: the clock, the packages and the run so far. */
  datatype Moment = Moment(wall: int, packages: map<string, Package>, run: Run)

  /** One call of `create_package` to update a package. */
  datatype Attempt = Attempt(from: Moment, to: Moment, errors: FileErrors, raised: Option<Exception>, packed: Packed,
                             ev: Evidence, causes: seq<Cause>)

  /** Each attempt begins where the one before it has ended. */
  ghost predicate Follow(from: Moment, attempts: seq<Attempt>, to: Moment) {
    && (forall i | 0 <= i < |attempts| :: attempts[i].from == Before(from, attempts, i))
    && to == Before(from, attempts, |attempts|)
  }

  /** The moment before the `i`-th attempt. */
  function Before(from: Moment, attempts: seq<Attempt>, i: nat): Moment
    requires i <= |attempts|
  {
    if i == 0 then from else attempts[i - 1].to
  }

  lemma BeforeFirst(from: Moment, attempts: seq<Attempt>)
    ensures Before(from, attempts, 0) == from
  {
  }

  lemma BeforeNext(from: Moment, attempts: seq<Attempt>, i: nat)
    requires i < |attempts|
    ensures Before(from, attempts, i + 1) == attempts[i].to
  {
  }

  lemma NextFollows(from: Moment, attempts: seq<Attempt>, to: Moment, i: nat)
    requires Follow(from, attempts, to) && 0 < i < |attempts|
    ensures attempts[i].from == attempts[i - 1].to
  {
  }

  lemma NothingFollows(from: Moment)
    ensures Follow(from, [], from) && Successes([]) == 0
  {
  }

  lemma OneMoreFollows(from: Moment, attempts: seq<Attempt>, a: Attempt)
    requires Follow(from, attempts, a.from)
    ensures Follow(from, attempts + [a], a.to)
    ensures Successes(attempts + [a]) == Successes(attempts) + (if a.raised.None? then 1 else 0)
  {
    assert (attempts + [a])[..|attempts|] == attempts;
    forall i | 0 <= i <= |attempts| ensures Before(from, attempts + [a], i) == Before(from, attempts, i) {
    }
  }

  function Successes(attempts: seq<Attempt>): nat {
    var n := |attempts|;
    if n == 0 then 0 else Successes(attempts[..n - 1]) + (if attempts[n - 1].raised.None? then 1 else 0)
  }

  class Packager {
    const d: Deployment

    // The rows of the job table by id, the ids of the users, and DATA_DIR by directory.
    const jobs: map<nat, Job>
    const users: set<int>
    var packages: map<string, Package>
    var wall: int

    ghost predicate Valid() {
      forall id | id in jobs :: jobs[id].id == id
    }

    constructor (d: Deployment, jobs: map<nat, Job>, users: set<int>, packages: map<string, Package>, wall: int)
      ensures this.d == d && this.jobs == jobs && this.users == users && this.packages == packages && this.wall == wall
    {
      this.d, this.jobs, this.users, this.packages, this.wall := d, jobs, users, packages, wall;
    }

    /** `datetime.now(timezone.utc)` */
    method Now() returns (t: int)
      modifies this`wall
      ensures t == wall >= old(wall)
    {
      t := *;
      if t < wall {
        t := wall;
      }
      wall := t;
    }

    /**
     * `make_zip`: the ZIP is written anew, one file of the generation after the other; whatever fails
     * leaves it half written.
     */
    method MakeZip(w: nat, me: Worker, tilePaths: set<string>, dir: string, fails: bool,
                   ghost r0: Run, ghost f0: Files, ghost rows: set<nat>, ghost seen: Dir)
      returns (zip: Option<map<string, nat>>)
      requires me.spot.Read? && Reading(d, w, me, r0, f0, rows) && Sees(d, me, seen)
      modifies this`packages, d`now, d`stamp, d`monotonic, d`links, d`staged, d`dirs, d`published, d`builders,
               d`workers, d`run, d.locks
      ensures Reading(d, w, me, r0, f0, rows) && Sees(d, me, seen)
      ensures packages.Keys == old(packages).Keys && SameOutside(old(packages), packages, {dir})
      ensures zip.Some? ==> dir in packages && packages[dir] == old(packages)[dir].(zip := zip)
      ensures Covered(d, me) ==> old(Covered(d, me))
      ensures zip.Some? && Covered(d, me) ==> Holds(zip.value, seen.tiles, tilePaths)
      // It fails if an access to the ZIP does, or its directory is missing, and in time and live only then.
      ensures zip.Some? ==> dir in old(packages) && !fails
      ensures zip.None? && Covered(d, me) && tilePaths <= seen.tiles.Keys ==> dir !in old(packages) || fails
    {
      hide IsRun, StepOk, Apply, Enabled, OwnRows, Untouched, RunsInTime, Holds, Reading, Covered;
      if dir !in packages {
        return None;
      }
      var archive := map[];
      packages := packages[dir := packages[dir].(zip := Some(archive))];
      var left, done := tilePaths, {};
      NothingHeld(seen.tiles);
      while left != {}
        invariant Reading(d, w, me, r0, f0, rows) && Sees(d, me, seen)
        invariant left + done == tilePaths
        invariant dir in old(packages) && packages == old(packages)[dir := old(packages)[dir].(zip := Some(archive))]
        invariant Covered(d, me) ==> old(Covered(d, me))
        invariant Covered(d, me) ==> Holds(archive, seen.tiles, done)
        decreases |left|
      {
        var path :| path in left;
        LookAway(d, w, me, r0, f0, rows, seen);
        var now: bool := *;
        if (fails && now) || me.spot.gen !in d.dirs || path !in d.dirs[me.spot.gen].tiles {
          return None;
        }
        var content := d.dirs[me.spot.gen].tiles[path];
        if Covered(d, me) { OneMoreHeld(archive, seen.tiles, done, path); }
        archive := archive[ARCHIVE_ROOT + path := content];
        packages := packages[dir := packages[dir].(zip := Some(archive))];
        left, done := left - {path}, done + {path};
      }
      assert done == tilePaths;
      zip := if fails then None else Some(archive);
    }

    /** What `create_package` does while it holds the generation. */
    method PackTiles(w: nat, me: Worker, bbox: string, float: string -> Option<real>, dir: string, zipFails: bool,
                     ghost r0: Run, ghost f0: Files, ghost rows: set<nat>, ghost seen: Dir)
      returns (r: Result<Packed, Exception>)
      requires me.spot.Read? && Reading(d, w, me, r0, f0, rows) && Sees(d, me, seen)
      modifies this`packages, d`now, d`stamp, d`monotonic, d`links, d`staged, d`dirs, d`published, d`builders,
               d`workers, d`run, d.locks
      ensures Reading(d, w, me, r0, f0, rows) && Sees(d, me, seen)
      ensures packages.Keys == old(packages).Keys && SameOutside(old(packages), packages, {dir})
      ensures r.Ok? ==> && SplitBbox(bbox, float) == Ok(Some(r.value.box)) && dir in packages && !zipFails
                        && packages[dir] == old(packages)[dir].(zip := Some(r.value.zip))
      // In time and with a live lease it comes to what these tiles, the bbox and the errors of the ZIP make of it.
      ensures Covered(d, me) ==>
                PackingOk(seen.tiles, OrderFor(me.provider, bbox, float, dir, zipFails, old(packages)), r)
      // The controlled exceptions come before the ZIP is touched: no tiles at all, none in the bbox, or a bad bbox.
      ensures r.Raised? && r.error.Http? ==>
                packages == old(packages) && Controlled(bbox, float, r.error) && r.error != NO_GRAPH
    {
      hide IsRun, StepOk, Apply, Enabled, OwnRows, Untouched, RunsInTime, Holds, Reading, SplitBbox, Covered, Sees,
           TilesMeeting, CanChoose, NotChosen;
      var choice := ChooseTiles(d, w, me, bbox, float, r0, f0, rows, seen);
      if choice.Raised? {
        return Raised(choice.error);
      }
      var (box, tilePaths) := choice.value;
      var zip := MakeZip(w, me, tilePaths, dir, zipFails, r0, f0, rows, seen);
      MeetingAreTiles(seen.tiles, box);
      r := if zip.None? then Raised(Unexpected) else Ok(Packed(box, zip.value));
    }

    /** The part of it under the lease, and its release. */
    method PackHeld(w: nat, p: Provider, bbox: string, float: string -> Option<real>, dir: string, zipFails: bool,
                    ghost r0: Run, ghost f0: Files, ghost found: Evidence)
      returns (r: Result<Packed, Exception>, ghost ev: Evidence)
      requires d.Valid() && w in d.workers && d.workers[w].provider == p
      requires d.workers[w].spot == Read(found.gen, found.lease)
      requires Untouched(r0, f0, d.run, d.Volume(), WorkerProc(w), None)
      requires NamedBeforeAndAfter(d.run, |r0.acts|, w, p, found.gen, found.seen, found.granted, found.checked)
      modifies this`packages, d`now, d`stamp, d`monotonic, d`links, d`staged, d`dirs, d`published, d`builders,
               d`workers, d`run, d.locks
      ensures d.Valid() && w !in d.workers && Extends(old(d.run), d.run)
      ensures Untouched(r0, f0, d.run, d.Volume(), WorkerProc(w), None)
      ensures OwnRows(d.locks.Contents(), WorkerProc(w))
              <= old(OwnRows(d.locks.Contents(), WorkerProc(w))) - {found.lease.id}
      ensures packages.Keys == old(packages).Keys && SameOutside(old(packages), packages, {dir})
      ensures r.Ok? ==> && SplitBbox(bbox, float) == Ok(Some(r.value.box)) && dir in packages && !zipFails
                        && packages[dir] == old(packages)[dir].(zip := Some(r.value.zip))
      ensures r.Raised? && r.error.Http? ==>
                packages == old(packages) && Controlled(bbox, float, r.error) && r.error != NO_GRAPH
      ensures PackedFrom(d.cfg, r0, d.run, w, OrderFor(p, bbox, float, dir, zipFails, old(packages)), r, ev)
    {
      hide IsRun, StepOk, Apply, Enabled, OwnRows, Untouched, RunsInTime, Holds, SplitBbox, Sees, Covered, TilesMeeting,
           PackedFrom, PackingOk, NamedBeforeAndAfter, Extends, FilesQuiet, Reading, Controlled;
      var me := d.workers[w];
      ghost var order := OrderFor(p, bbox, float, dir, zipFails, packages);
      ghost var r1, f1, rows1 := d.run, d.Volume(), OwnRows(d.locks.Contents(), WorkerProc(w));
      ghost var held := if found.gen in d.dirs then d.dirs[found.gen] else EMPTY_DIR;
      StartReading(d, w, me, held);
      r := PackTiles(w, me, bbox, float, dir, zipFails, r1, f1, rows1, held);
      ev := found.(read := |d.run.acts|);
      ghost var r2, f2 := d.run, d.Volume();
      StopReading(d, w, me, r1, f1, rows1);
      UntouchedTransitive(r0, f0, r1, f1, r2, f2, WorkerProc(w), None);
      PackedNow(d, w, me, r0, r1, order, r, held, rows1, f1, ev);
      d.ExitShared(w);
      UntouchedTransitive(r0, f0, r2, f2, d.run, d.Volume(), WorkerProc(w), None);
      UntouchedExtends(r1, f1, r2, f2, WorkerProc(w), None);
      UntouchedExtends(r2, f2, d.run, d.Volume(), WorkerProc(w), None);
      ExtendsTransitive(r1, r2, d.run);
      PackedStays(d.cfg, r0, r2, d.run, w, order, r, ev);
    }

    /** The generation the link names, packed under a shared lease; without one there is nothing to pack. */
    method PackUnderLease(w: nat, p: Provider, bbox: string, float: string -> Option<real>, dir: string, zipFails: bool)
      returns (r: Result<Packed, Exception>, ghost ev: Evidence, ghost causes: seq<Cause>)
      requires d.Valid() && w !in d.workers
      modifies this`packages, d`now, d`stamp, d`monotonic, d`naps, d`links, d`staged, d`dirs, d`published,
               d`builders, d`workers, d`run, d.locks
      ensures d.Valid() && w !in d.workers && Extends(old(d.run), d.run)
      ensures FilesQuiet(d.run, |old(d.run).acts|, WorkerProc(w))
      ensures OwnRows(d.locks.Contents(), WorkerProc(w)) <= old(OwnRows(d.locks.Contents(), WorkerProc(w)))
      ensures packages.Keys == old(packages).Keys && SameOutside(old(packages), packages, {dir})
      ensures r.Ok? ==> && SplitBbox(bbox, float) == Ok(Some(r.value.box)) && dir in packages && !zipFails
                        && packages[dir] == old(packages)[dir].(zip := Some(r.value.zip))
      // A 400 means that the bbox is bad, and a 500 that there was no graph to be had.
      ensures r.Raised? && r.error.Http? ==> packages == old(packages) && Controlled(bbox, float, r.error)
      ensures r == Raised(NO_GRAPH) ==>
                NoGraph(d.run, w, p, |old(d.run).acts|, causes) && d.monotonic >= old(d.monotonic) + TimeWaited(causes)
      ensures WaitsForGraph(d.run, |old(d.run).acts|, old(d.naps), d.naps, w)
      // Otherwise a generation was held, and in time and with a live lease the result is due to its tiles.
      ensures r != Raised(NO_GRAPH) ==>
                PackedFrom(d.cfg, old(d.run), d.run, w, OrderFor(p, bbox, float, dir, zipFails, old(packages)), r, ev)
    {
      hide IsRun, StepOk, Apply, Enabled, OwnRows, Untouched, RunsInTime, SplitBbox, PackedFrom, CausesOk, MayRaise,
           NamedBeforeAndAfter, Extends, FilesQuiet, Polls, Slept, PatienceFor;
      ghost var r0, f0 := d.run, d.Volume();
      ghost var seen, granted, checked;
      var g, lease;
      g, lease, causes, seen, granted, checked := d.EnterShared(w, p, SHARED_LOCK_TIMEOUT);
      UntouchedExtends(r0, f0, d.run, d.Volume(), WorkerProc(w), None);
      ev := Evidence(Gen(p, 0), Lease(0, 0), seen, granted, checked, 0);
      if lease.None? {
        return Raised(NO_GRAPH), ev, causes;
      }
      ghost var r1 := d.run;
      r, ev := PackHeld(w, p, bbox, float, dir, zipFails, r0, f0, ev.(gen := g.value, lease := lease.value));
      UntouchedExtends(r0, f0, d.run, d.Volume(), WorkerProc(w), None);
      PollsStay(r1, d.run, |r0.acts|, old(d.naps), d.naps, WorkerProc(w));
    }

    /** The ZIP and the metadata beside it. */
    method MakePackage(w: nat, jobId: nat, jobName: string, p: Provider, description: string, bbox: string,
                       float: string -> Option<real>, dir: string, errors: FileErrors, ghost job: Job)
      returns (raised: Option<Exception>, ghost packed: Packed, ghost ev: Evidence, ghost causes: seq<Cause>)
      requires d.Valid() && w !in d.workers
      // All along, the job says that it is being worked on.
      requires job.status == Compressing && job.lastStarted == Some(wall)
      modifies this`packages, this`wall, d`now, d`stamp, d`monotonic, d`naps, d`links, d`staged, d`dirs,
               d`published, d`builders, d`workers, d`run, d.locks
      ensures d.Valid() && w !in d.workers && Extends(old(d.run), d.run)
      ensures FilesQuiet(d.run, |old(d.run).acts|, WorkerProc(w))
      ensures OwnRows(d.locks.Contents(), WorkerProc(w)) <= old(OwnRows(d.locks.Contents(), WorkerProc(w)))
      ensures wall >= old(wall)
      ensures packages.Keys == old(packages).Keys && SameOutside(old(packages), packages, {dir})
      ensures raised.None? ==>
                && SplitBbox(bbox, float) == Ok(Some(packed.box)) && dir in packages
                && packages[dir].zip == Some(packed.zip) && packages[dir].meta.Some?
                && var meta := packages[dir].meta.value;
                   meta == Meta(jobId, p, jobName, description, bbox, meta.lastModified)
      ensures raised.Some? && raised.value.Http? ==>
                packages == old(packages) && Controlled(bbox, float, raised.value)
      ensures OutcomeOk(d.cfg, old(d.run), d.run, w, OrderFor(p, bbox, float, dir, errors.zip, old(packages)), errors,
                        raised, packed, ev, causes)
      ensures raised == Some(NO_GRAPH) ==> d.monotonic >= old(d.monotonic) + TimeWaited(causes)
      ensures WaitsForGraph(d.run, |old(d.run).acts|, old(d.naps), d.naps, w)
    {
      hide WaitsForGraph, IsRun, OwnRows, Untouched, RunsInTime, SplitBbox, PackedFrom, Extends, FilesQuiet, NoGraph;
      packed := Packed(T.Bbox(0.0, 0.0, 0.0, 0.0), map[]);
      var packing;
      packing, ev, causes := PackUnderLease(w, p, bbox, float, dir, errors.zip);
      if packing.Raised? {
        return Some(packing.error), packed, ev, causes;
      }
      packed := packing.value;
      var modified := Now();
      if errors.meta {
        return Some(Unexpected), packed, ev, causes;
      }
      packages := packages[dir := packages[dir].(meta := Some(Meta(jobId, p, jobName, description, bbox, modified)))];
      raised := None;
    }

    /**
     * `create_package`. It ends with the exception it raised, if any; whatever happens after the
     * job is found, the job says in the end whether it was packed, and the lease is given back.
     */
    method CreatePackage(w: nat, jobId: nat, jobName: string, p: Provider, description: string, bbox: string,
                         float: string -> Option<real>,
                         zipPath: string, userId: Option<int>, update: bool, errors: FileErrors)
      returns (raised: Option<Exception>, ghost packed: Packed, ghost ev: Evidence, ghost causes: seq<Cause>)
      requires d.Valid() && w !in d.workers
      modifies this`packages, this`wall, if jobId in jobs then {jobs[jobId]} else {},
               d`now, d`stamp, d`monotonic, d`naps, d`links, d`staged, d`dirs, d`published, d`builders, d`workers,
               d`run, d.locks
      ensures d.Valid() && w !in d.workers && Extends(old(d.run), d.run)
      ensures FilesQuiet(d.run, |old(d.run).acts|, WorkerProc(w))
      ensures OwnRows(d.locks.Contents(), WorkerProc(w)) <= old(OwnRows(d.locks.Contents(), WorkerProc(w)))
      ensures wall >= old(wall)
      // An unknown user or job is an error before anything is touched.
      ensures Unknown(jobId, userId) ==>
                packages == old(packages) && (jobId in jobs ==> unchanged(jobs[jobId]))
      ensures userId.Some? && userId.value !in users ==> raised == Some(NO_USER) && Unknown(jobId, userId)
      ensures (userId.None? || userId.value in users) && jobId !in jobs ==>
                raised == Some(NO_JOB) && Unknown(jobId, userId)
      // Otherwise the job is completed exactly if nothing was raised.
      ensures (userId.None? || userId.value in users) && jobId in jobs ==>
                && !Unknown(jobId, userId)
                && jobs[jobId].status == (if raised.None? then Completed else Failed)
                && jobs[jobId].lastStarted.Some? && jobs[jobId].lastFinished.Some?
                && old(wall) <= jobs[jobId].lastStarted.value <= jobs[jobId].lastFinished.value <= wall
      // No other package is touched.
      ensures SameOutside(old(packages), packages, {Dirname(zipPath)})
      // What was packed.
      ensures raised.None? ==>
                && SplitBbox(bbox, float) == Ok(Some(packed.box)) && Dirname(zipPath) in packages
                && packages[Dirname(zipPath)].zip == Some(packed.zip) && packages[Dirname(zipPath)].meta.Some?
                && var meta := packages[Dirname(zipPath)].meta.value;
                   meta == Meta(jobId, p, jobName, description, bbox, meta.lastModified)
      // Where it came from, or why nothing was packed.
      ensures !Unknown(jobId, userId) ==>
                OutcomeOk(d.cfg, old(d.run), d.run, w,
                          OrderFor(p, bbox, float, Dirname(zipPath), errors.zip, old(packages)), errors,
                          raised, packed, ev, causes)
      ensures !Unknown(jobId, userId) && raised.Some? && raised.value.Http? ==> Controlled(bbox, float, raised.value)
      ensures !Unknown(jobId, userId) && raised == Some(NO_GRAPH) ==>
                d.monotonic >= old(d.monotonic) + TimeWaited(causes)
      ensures WaitsForGraph(d.run, |old(d.run).acts|, old(d.naps), d.naps, w)
      // A creation that fails leaves no package behind.
      ensures raised.Some? && !Unknown(jobId, userId) && !update ==> Dirname(zipPath) !in packages
      // An update that fails with a controlled exception keeps the previous package.
      ensures raised.Some? && raised.value.Http? && update ==> packages == old(packages)
      // An update neither adds nor removes a package.
      ensures update ==> packages.Keys == old(packages).Keys
    {
      FilesQuietAtFirst(d.run, WorkerProc(w));
      hide IsRun, OwnRows, Untouched, RunsInTime, SplitBbox, OutcomeOk, Extends, FilesQuiet, Dirname, Controlled,
           SameOutside, TimeWaited, OrderFor, WaitsForGraph;
      SameAtFirst(packages, {Dirname(zipPath)});
      WaitsNot(d.run, |d.run.acts|, d.naps, w);
      packed, causes := Packed(T.Bbox(0.0, 0.0, 0.0, 0.0), map[]), [];
      ev := Evidence(Gen(p, 0), Lease(0, 0), 0, 0, 0, 0);
      if userId.Some? && userId.value !in users {
        return Some(NO_USER), packed, ev, causes;
      }
      if jobId !in jobs {
        return Some(NO_JOB), packed, ev, causes;
      }
      var job := jobs[jobId];
      job.status := Compressing;
      var started := Now();
      job.lastStarted := Some(started);
      raised, packed, ev, causes :=
          MakePackage(w, jobId, jobName, p, description, bbox, float, Dirname(zipPath), errors, job);
      ghost var made := packages;
      FinishJob(job, raised, Dirname(zipPath), update);
      SameWithout(old(packages), made, Dirname(zipPath));
    }

    /** The `finally` of `create_package`: a creation that failed is removed, and the job says how it ended. */
    method FinishJob(job: Job, raised: Option<Exception>, dir: string, update: bool)
      modifies this`packages, this`wall, job`lastFinished, job`status
      ensures packages == if raised.Some? && !update then old(packages) - {dir} else old(packages)
      ensures job.status == (if raised.None? then Completed else Failed)
      ensures job.lastFinished == Some(wall) && wall >= old(wall)
    {
      var finalStatus := Completed;
      if raised.Some? {
        finalStatus := Failed;
        if !update {
          packages := packages - {dir};
        }
      }
      var finished := Now();
      job.lastFinished := Some(finished);
      job.status := finalStatus;
    }

    /** `select(Job)` of the jobs to update, in whatever order the database returns them. */
    method SelectJobs(p: Provider) returns (rows: seq<Job>)
      requires Valid()
      ensures Distinct(rows)
      ensures forall i | 0 <= i < |rows| :: ToUpdate(rows[i].id, p) && jobs[rows[i].id] == rows[i]
      ensures forall id :: ToUpdate(id, p) ==> jobs[id] in rows
      ensures forall i | 0 <= i < |rows| :: rows[i].update && rows[i].provider == p
      ensures forall id | id in jobs && jobs[id].update && jobs[id].provider == p :: jobs[id] in rows
    {
      rows := [];
      var left := jobs.Values;
      while left != {}
        invariant left <= jobs.Values && Distinct(rows)
        invariant forall i | 0 <= i < |rows| ::
                    rows[i] !in left && ToUpdate(rows[i].id, p) && jobs[rows[i].id] == rows[i]
        invariant forall id | ToUpdate(id, p) && jobs[id] !in left :: jobs[id] in rows
        decreases |left|
      {
        var job :| job in left;
        ghost var id :| id in jobs && jobs[id] == job;
        left := left - {job};
        if job.update && job.provider == p {
          rows := rows + [job];
        }
      }
    }

    /** What an attempt to update a job comes to. */
    ghost predicate Tried(job: Job, w: nat, float: string -> Option<real>, a: Attempt)
      reads job
    {
      && a.from.wall <= a.to.wall && Extends(a.from.run, a.to.run)
      && a.to.packages.Keys == a.from.packages.Keys
      && SameOutside(a.from.packages, a.to.packages, {Dirname(job.zipPath)})
      && (if Unknown(job.id, job.userId) then a.raised.Some? && a.raised.value.Http?
          else && job.status == (if a.raised.None? then Completed else Failed)
               && job.lastStarted.Some? && job.lastFinished.Some?
               && a.from.wall <= job.lastStarted.value <= job.lastFinished.value <= a.to.wall
               && OutcomeOk(d.cfg, a.from.run, a.to.run, w,
                            OrderFor(job.provider, job.bbox, float, Dirname(job.zipPath), a.errors.zip,
                                     a.from.packages),
                            a.errors, a.raised, a.packed, a.ev, a.causes))
      && (a.raised.Some? && a.raised.value.Http? ==> a.to.packages == a.from.packages)
      && (a.raised.None? ==> Updated(job, float, a))
    }

    /** The package that a successful attempt leaves. */
    ghost predicate Updated(job: Job, float: string -> Option<real>, a: Attempt) {
      var dir := Dirname(job.zipPath);
      && SplitBbox(job.bbox, float) == Ok(Some(a.packed.box))
      && dir in a.to.packages && a.to.packages[dir].zip == Some(a.packed.zip) && a.to.packages[dir].meta.Some?
      && var meta := a.to.packages[dir].meta.value;
         meta == Meta(job.id, job.provider, job.arqId, job.description, job.bbox, meta.lastModified)
    }

    /** What the worker sees now. */
    ghost function Here(): Moment
      reads this`wall, this`packages, d`run
    {
      Moment(wall, packages, d.run)
    }

    /** The jobs that `update_all_packages` is about. */
    predicate ToUpdate(id: nat, p: Provider) {
      id in jobs && jobs[id].update && jobs[id].provider == p
    }

    /** One round of `update_all_packages`: an exception is only logged. */
    method TryUpdate(w: nat, job: Job, float: string -> Option<real>, errors: FileErrors)
      returns (ok: bool, ghost a: Attempt)
      requires job.id in jobs && jobs[job.id] == job && d.Valid() && w !in d.workers
      modifies this`packages, this`wall, job,
               d`now, d`stamp, d`monotonic, d`naps, d`links, d`staged, d`dirs, d`published, d`builders, d`workers,
               d`run, d.locks
      ensures d.Valid() && w !in d.workers
      ensures OwnRows(d.locks.Contents(), WorkerProc(w)) <= old(OwnRows(d.locks.Contents(), WorkerProc(w)))
      ensures a.from == old(Here()) && a.to == Here() && ok == a.raised.None? && a.errors == errors
      ensures Tried(job, w, float, a) && (Unknown(job.id, job.userId) ==> unchanged(job))
    {
      hide IsRun, OwnRows, Untouched, RunsInTime, SplitBbox, OutcomeOk, Extends, FilesQuiet, Dirname, SameOutside;
      ghost var from := Here();
      ghost var packed, ev, causes;
      var raised;
      raised, packed, ev, causes := CreatePackage(w, job.id, job.arqId, job.provider, job.description, job.bbox, float,
                                                  job.zipPath, job.userId, true, errors);
      ok := raised.None?;
      a := Attempt(from, Here(), errors, raised, packed, ev, causes);
    }

    /** The loop of `update_all_packages`. */
    method UpdateInOrder(w: nat, sorted: seq<Job>, float: string -> Option<real>, errors: nat -> FileErrors)
      returns (succeeded: nat, ghost attempts: seq<Attempt>)
      requires d.Valid() && w !in d.workers && Distinct(sorted)
      requires forall i | 0 <= i < |sorted| :: sorted[i].id in jobs && jobs[sorted[i].id] == sorted[i]
      modifies this`packages, this`wall, (set job | job in sorted),
               d`now, d`stamp, d`monotonic, d`naps, d`links, d`staged, d`dirs, d`published, d`builders, d`workers,
               d`run, d.locks
      ensures d.Valid() && w !in d.workers
      ensures OwnRows(d.locks.Contents(), WorkerProc(w)) <= old(OwnRows(d.locks.Contents(), WorkerProc(w)))
      ensures |attempts| == |sorted| && succeeded == Successes(attempts) <= |sorted|
      ensures Follow(old(Here()), attempts, Here())
      ensures forall i | 0 <= i < |sorted| ::
                Tried(sorted[i], w, float, attempts[i]) && attempts[i].errors == errors(sorted[i].id)
      ensures forall i | 0 <= i < |sorted| && Unknown(sorted[i].id, sorted[i].userId) :: unchanged(sorted[i])
    {
      hide *;
      succeeded, attempts := 0, [];
      NothingFollows(old(Here()));
      for i := 0 to |sorted|
        invariant d.Valid() && w !in d.workers
        invariant OwnRows(d.locks.Contents(), WorkerProc(w)) <= old(OwnRows(d.locks.Contents(), WorkerProc(w)))
        invariant |attempts| == i && succeeded == Successes(attempts) <= i
        invariant Follow(old(Here()), attempts, Here())
        invariant forall k | 0 <= k < i ::
                    Tried(sorted[k], w, float, attempts[k]) && attempts[k].errors == errors(sorted[k].id)
        invariant forall k | 0 <= k < |sorted| && (k >= i || Unknown(sorted[k].id, sorted[k].userId)) ::
                    unchanged(sorted[k])
      {
        OnlyOnce(sorted, i);
        var ok;
        ghost var a;
        ok, a := TryUpdate(w, sorted[i], float, errors(sorted[i].id));
        if ok {
          succeeded := succeeded + 1;
        }
        OneMoreFollows(old(Here()), attempts, a);
        attempts := attempts + [a];
      }
    }

    /** The first job was through before the second one was started. */
    ghost predicate EndsBefore(job: Job, later: Job)
      reads job, later
    {
      job.lastFinished.Some? && later.lastStarted.Some? && job.lastFinished.value <= later.lastStarted.value
    }

    lemma TimesOfAttempts(job: Job, later: Job, w: nat, float: string -> Option<real>, a: Attempt, b: Attempt)
      requires Tried(job, w, float, a) && Tried(later, w, float, b) && a.to.wall <= b.from.wall
      ensures Known(job) && Known(later) ==> EndsBefore(job, later)
    {
    }

    lemma WhatIsTouched(job: Job, w: nat, float: string -> Option<real>, a: Attempt)
      requires Tried(job, w, float, a)
      ensures a.from.wall <= a.to.wall && a.to.packages.Keys == a.from.packages.Keys
      ensures Extends(a.from.run, a.to.run)
      ensures SameOutside(a.from.packages, a.to.packages, {Dirname(job.zipPath)})
    {
    }

    lemma {:induction false} EarlierIsBefore(w: nat, sorted: seq<Job>, float: string -> Option<real>,
                                             attempts: seq<Attempt>, from: Moment, to: Moment, i: nat, j: nat)
      requires |attempts| == |sorted| && Follow(from, attempts, to) && i < j < |sorted|
      requires forall k | 0 <= k < |sorted| :: Tried(sorted[k], w, float, attempts[k])
      ensures attempts[i].to.wall <= attempts[j].from.wall
      decreases j
    {
      hide *;
      NextFollows(from, attempts, to, j);
      if i < j - 1 {
        EarlierIsBefore(w, sorted, float, attempts, from, to, i, j - 1);
        WhatIsTouched(sorted[j - 1], w, float, attempts[j - 1]);
      }
    }

    /** The attempts from the `i`-th on touch the packages of their own jobs only. */
    lemma {:induction false} RestTouches(w: nat, sorted: seq<Job>, float: string -> Option<real>,
                                         attempts: seq<Attempt>, from: Moment, to: Moment, i: nat)
      requires |attempts| == |sorted| && Follow(from, attempts, to) && i <= |sorted|
      requires forall k | 0 <= k < |sorted| :: Tried(sorted[k], w, float, attempts[k])
      ensures SameOutside(Before(from, attempts, i).packages, to.packages, DirsOf(sorted[i..]))
      ensures Before(from, attempts, i).packages.Keys == to.packages.Keys
      decreases |sorted| - i
    {
      hide Tried, Dirname;
      if i < |sorted| {
        RestTouches(w, sorted, float, attempts, from, to, i + 1);
        DirsOfFirst(sorted[i..]);
        assert sorted[i..][1..] == sorted[i + 1..];
        WhatIsTouched(sorted[i], w, float, attempts[i]);
        SameOutsideBoth(attempts[i].from.packages, attempts[i].to.packages, to.packages, {Dirname(sorted[i].zipPath)},
                        DirsOf(sorted[i + 1..]), DirsOf(sorted[i..]));
      }
    }

    /** The attempts came one after the other, and nobody but a later attempt changed a package. */
    lemma OneAfterTheOther(w: nat, sorted: seq<Job>, float: string -> Option<real>, attempts: seq<Attempt>,
                           from: Moment, to: Moment)
      requires |attempts| == |sorted| && Follow(from, attempts, to)
      requires forall i | 0 <= i < |sorted| :: Tried(sorted[i], w, float, attempts[i])
      ensures forall i, j | 0 <= i < j < |sorted| && Known(sorted[i]) && Known(sorted[j]) ::
                EndsBefore(sorted[i], sorted[j])
      ensures forall i | 0 <= i < |sorted| :: SameOutside(attempts[i].to.packages, to.packages, DirsOf(sorted[i + 1..]))
      ensures SameOutside(from.packages, to.packages, DirsOf(sorted)) && from.packages.Keys == to.packages.Keys
    {
      hide *;
      forall i, j | 0 <= i < j < |sorted| && Known(sorted[i]) && Known(sorted[j])
        ensures EndsBefore(sorted[i], sorted[j])
      {
        EarlierIsBefore(w, sorted, float, attempts, from, to, i, j);
        TimesOfAttempts(sorted[i], sorted[j], w, float, attempts[i], attempts[j]);
      }
      forall i | 0 <= i < |sorted|
        ensures SameOutside(attempts[i].to.packages, to.packages, DirsOf(sorted[i + 1..]))
      {
        RestTouches(w, sorted, float, attempts, from, to, i + 1);
        BeforeNext(from, attempts, i);
      }
      RestTouches(w, sorted, float, attempts, from, to, 0);
      BeforeFirst(from, attempts);
      assert sorted[0..] == sorted;
    }

    /**
     * `update_all_packages`: every job of the provider is tried once, one after the other and the
     * largest first, and a failure does not keep the others from being tried.
     */
    method UpdateAllPackages(w: nat, p: Provider, float: string -> Option<real>, errors: nat -> FileErrors)
      returns (total: nat, succeeded: nat, ghost rows: seq<Job>, ghost attempts: seq<Attempt>)
      requires Valid() && d.Valid() && w !in d.workers
      modifies this`packages, this`wall, jobs.Values,
               d`now, d`stamp, d`monotonic, d`naps, d`links, d`staged, d`dirs, d`published, d`builders, d`workers,
               d`run, d.locks
      ensures d.Valid() && w !in d.workers
      ensures OwnRows(d.locks.Contents(), WorkerProc(w)) <= old(OwnRows(d.locks.Contents(), WorkerProc(w)))
      // The jobs selected are those of the provider that are to be updated, each once.
      ensures Distinct(rows) && Distinct(SortJobs(rows))
      ensures forall id :: ToUpdate(id, p) ==> jobs[id] in rows
      ensures forall i | 0 <= i < |rows| :: ToUpdate(rows[i].id, p) && jobs[rows[i].id] == rows[i]
      ensures forall i | 0 <= i < |rows| :: rows[i].update && rows[i].provider == p
      ensures forall id | id in jobs && jobs[id].update && jobs[id].provider == p :: jobs[id] in rows
      // The counts tell how many were tried, and how many succeeded.
      ensures total == |rows| == |attempts| == |SortJobs(rows)| && succeeded == Successes(attempts) <= total
      ensures forall i | 0 <= i < total ::
                && Tried(SortJobs(rows)[i], w, float, attempts[i])
                && attempts[i].errors == errors(SortJobs(rows)[i].id)
      ensures forall id | id in jobs && (!ToUpdate(id, p) || Unknown(id, jobs[id].userId)) :: unchanged(jobs[id])
      // A larger job is through before a smaller one starts.
      ensures Follow(old(Here()), attempts, Here())
      ensures forall i, j | 0 <= i < j < total && Known(SortJobs(rows)[i]) && Known(SortJobs(rows)[j]) ::
                EndsBefore(SortJobs(rows)[i], SortJobs(rows)[j])
      // What an attempt leaves of a package stays until the end, unless a later job has the same directory.
      ensures forall i | 0 <= i < total ::
                SameOutside(attempts[i].to.packages, packages, DirsOf(SortJobs(rows)[i + 1..]))
      // No package of another job is touched, and none comes or goes.
      ensures SameOutside(old(packages), packages, DirsOf(rows)) && packages.Keys == old(packages).Keys
    {
      hide IsRun, OwnRows, Dirname, SortJobs, Tried, Follow, EndsBefore, SameOutside, Successes, Distinct;
      var selected := SelectJobs(p);
      rows := selected;
      SortKeepsDistinct(selected);
      var sorted := SortJobs(selected);
      assert forall i | 0 <= i < |sorted| :: sorted[i] in selected;
      assert DirsOf(sorted) <= DirsOf(selected);
      succeeded, attempts := UpdateInOrder(w, sorted, float, errors);
      total := |sorted|;
      OneAfterTheOther(w, sorted, float, attempts, old(Here()), Here());
      SameOutsideMore(old(packages), packages, DirsOf(sorted), DirsOf(rows));
    }

    predicate Known(job: Job) {
      !Unknown(job.id, job.userId)
    }

    predicate Unknown(jobId: nat, userId: Option<int>) {
      (userId.Some? && userId.value !in users) || jobId !in jobs
    }
  }

  lemma FilesQuietAtFirst(r: Run, me: Holder)
    requires |r.states| == |r.acts| + 1
    ensures FilesQuiet(r, |r.acts|, me) && Extends(r, r)
  {
  }

  /** The directories of the packages of these jobs. */
  function DirsOf(jobs: seq<Job>): set<string> {
    set i | 0 <= i < |jobs| :: Dirname(jobs[i].zipPath)
  }

  lemma OnlyOnce(jobs: seq<Job>, i: nat)
    requires Distinct(jobs) && i < |jobs|
    ensures forall k | 0 <= k < |jobs| && k != i :: jobs[k] != jobs[i]
  {
  }

  lemma DirsOfFirst(jobs: seq<Job>)
    requires |jobs| > 0
    ensures DirsOf(jobs) == {Dirname(jobs[0].zipPath)} + DirsOf(jobs[1..])
  {
    forall i | 0 < i < |jobs| ensures Dirname(jobs[i].zipPath) in DirsOf(jobs[1..]) {
      assert jobs[1..][i - 1] == jobs[i];
    }
  }

  lemma NoTilesAtAll(tiles: map<string, nat>, paths: seq<string>)
    ensures (forall path :: path in paths <==> path in tiles) ==> (tiles == map[] <==> |paths| == 0)
    ensures tiles == map[] ==> forall box :: TilesMeeting(tiles, box) == {}
  {
    if |paths| > 0 { assert paths[0] in paths; }
  }

  lemma ListedReadable(tiles: map<string, nat>, paths: seq<string>)
    ensures (forall path :: path in paths <==> path in tiles) ==>
              (AllReadable(tiles) <==> forall path | path in paths :: T.GetTileBbox(path).Ok?)
  {
  }

  lemma MeetingAreTiles(tiles: map<string, nat>, box: T.Bbox)
    ensures TilesMeeting(tiles, box) <= tiles.Keys
  {
  }

  /** The order for a package in this directory. */
  function OrderFor(p: Provider, bbox: string, float: string -> Option<real>, dir: string, zipFails: bool,
                    packages: map<string, Package>): Order {
    Order(p, bbox, float, dir in packages && !zipFails)
  }

  lemma ListedSelection(tiles: map<string, nat>, paths: seq<string>, bbox: T.Bbox)
    ensures (forall path :: path in paths <==> path in tiles) ==> T.Selection(paths, bbox) == TilesMeeting(tiles, bbox)
  {
  }
}
