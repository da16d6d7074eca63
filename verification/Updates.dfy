/** What a build is for: once it has queued the update, every package is made from its generation or a newer one. */
module PackageUpdates {
  import opened Common
  import opened LeaseProtocol
  import opened GenerationSafety
  import opened Interference
  import opened GraphDeployment
  import opened GraphBuilding
  import opened BuildRuns
  import opened PackageJobs
  import opened Packages

  /** What is packed after a build has moved the link is as new as what that build has moved it to. */
  lemma PackedFromNewGraph(cfg: Settings, r0: Run, built: Run, r1: Run, r: Run, b: nat, p: Provider, g: Gen, dir: Dir,
                           swap: nat, w: nat, order: Order, result: Result<Packed, Exception>, ev: Evidence)
    requires LinkSwapped(r0, built, b, p, g, dir, swap) && Extends(built, r) && swap < |r1.acts|
    requires IsRun(r) && RunsInTime(r, p)
    requires PackedFrom(cfg, r1, r, w, order, result, ev) && order.provider == p
    ensures ev.gen.provider == p && ev.gen.stamp >= g.stamp
  {
    hide IsRun, PackingOk, RunsInTime, LinkSwapped;
    LinkIsAsNewAfterwards(r0, built, r, b, p, g, dir, swap, ev.seen);
    EveryRunKeepsApart(r, ev.seen);
  }

  /** The run goes on from attempt to attempt. */
  lemma {:induction false} RunsGoOn(k: Packager, w: nat, sorted: seq<Job>, float: string -> Option<real>,
                                    attempts: seq<Attempt>, from: Moment, to: Moment, i: nat)
    requires |attempts| == |sorted| && Follow(from, attempts, to) && i <= |sorted|
    requires forall j | 0 <= j < |sorted| :: k.Tried(sorted[j], w, float, attempts[j])
    ensures Extends(from.run, Before(from, attempts, i).run)
    decreases i
  {
    hide *;
    if i == 0 {
      BeforeFirst(from, attempts);
      ExtendsItself(from.run);
    } else {
      RunsGoOn(k, w, sorted, float, attempts, from, to, i - 1);
      BeforeNext(from, attempts, i - 1);
      AttemptFollows(from, attempts, to, i - 1);
      k.WhatIsTouched(sorted[i - 1], w, float, attempts[i - 1]);
      ExtendsTransitive(from.run, attempts[i - 1].from.run, attempts[i - 1].to.run);
    }
  }

  lemma {:induction false} RunsGoOnToTheEnd(k: Packager, w: nat, sorted: seq<Job>, float: string -> Option<real>,
                                            attempts: seq<Attempt>, from: Moment, to: Moment, i: nat)
    requires |attempts| == |sorted| && Follow(from, attempts, to) && i <= |sorted|
    requires forall j | 0 <= j < |sorted| :: k.Tried(sorted[j], w, float, attempts[j])
    ensures Extends(Before(from, attempts, i).run, to.run)
    decreases |sorted| - i
  {
    hide *;
    if i == |sorted| {
      BeforeLast(from, attempts, to);
      ExtendsItself(to.run);
    } else {
      RunsGoOnToTheEnd(k, w, sorted, float, attempts, from, to, i + 1);
      BeforeNext(from, attempts, i);
      AttemptFollows(from, attempts, to, i);
      k.WhatIsTouched(sorted[i], w, float, attempts[i]);
      ExtendsTransitive(attempts[i].from.run, attempts[i].to.run, to.run);
    }
  }

  lemma ExtendsItself(r: Run)
    ensures Extends(r, r)
  {
  }

  lemma AttemptFollows(from: Moment, attempts: seq<Attempt>, to: Moment, i: nat)
    requires Follow(from, attempts, to) && i < |attempts|
    ensures attempts[i].from == Before(from, attempts, i)
  {
  }

  lemma BeforeLast(from: Moment, attempts: seq<Attempt>, to: Moment)
    requires Follow(from, attempts, to)
    ensures to == Before(from, attempts, |attempts|)
  {
  }

  lemma WhatWasPacked(k: Packager, job: Job, w: nat, float: string -> Option<real>, a: Attempt)
    requires k.Tried(job, w, float, a) && a.raised.None?
    ensures PackedFrom(k.d.cfg, a.from.run, a.to.run, w,
                       OrderFor(job.provider, job.bbox, float, Dirname(job.zipPath), a.errors.zip, a.from.packages),
                       Ok(a.packed), a.ev)
  {
    hide PackedFrom, Extends, SameOutside;
  }

  /**
   * The update that a build has queued, at any time after it moved the link: in time, every package the update
   * makes is from the generation of that build or a newer one.
   */
  lemma UpdatedFromNewGraph(k: Packager, w: nat, sorted: seq<Job>, float: string -> Option<real>,
                            attempts: seq<Attempt>, from: Moment, to: Moment, i: nat,
                            r0: Run, built: Run, b: nat, p: Provider, g: Gen, dir: Dir, swap: nat)
    requires |attempts| == |sorted| && Follow(from, attempts, to) && i < |sorted|
    requires forall j | 0 <= j < |sorted| :: k.Tried(sorted[j], w, float, attempts[j])
    requires sorted[i].provider == p && attempts[i].raised.None?
    requires IsRun(to.run) && RunsInTime(to.run, p)
    requires LinkSwapped(r0, built, b, p, g, dir, swap) && Extends(built, to.run) && swap < |from.run.acts|
    ensures attempts[i].ev.gen.provider == p && attempts[i].ev.gen.stamp >= g.stamp
  {
    var job, a := sorted[i], attempts[i];
    var order := OrderFor(p, job.bbox, float, Dirname(job.zipPath), a.errors.zip, a.from.packages);
    assert order.provider == p;
    hide *;
    WhatWasPacked(k, job, w, float, a);
    AttemptFollows(from, attempts, to, i);
    BeforeNext(from, attempts, i);
    RunsGoOn(k, w, sorted, float, attempts, from, to, i);
    LongerRun(from.run, a.from.run);
    RunsGoOnToTheEnd(k, w, sorted, float, attempts, from, to, i + 1);
    PackedStays(k.d.cfg, a.from.run, a.to.run, to.run, w, order, Ok(a.packed), a.ev);
    PackedFromNewGraph(k.d.cfg, r0, built, a.from.run, to.run, b, p, g, dir, swap, w, order, Ok(a.packed), a.ev);
  }
}
