/** What a process can rely on while the others take any number of steps. */
module Interference {
  import opened Common
  import opened GraphLocks
  import opened LeaseProtocol
  import opened LeaseOwnership
  import opened GenerationSafety

  function Append(r: Run, a: Action, s: State): Run {
    Run(r.states + [s], r.acts + [a])
  }

  ghost predicate Extends(r: Run, r': Run) {
    r.states <= r'.states && r.acts <= r'.acts
  }

  lemma ExtendsTransitive(r: Run, r': Run, r'': Run)
    requires Extends(r, r') && Extends(r', r'')
    ensures Extends(r, r'')
  {
  }

  lemma LongerRun(r: Run, r': Run)
    requires Extends(r, r')
    ensures |r.acts| <= |r'.acts|
  {
  }

  lemma StatesAreKept(r: Run, r': Run, i: nat)
    requires Extends(r, r') && i < |r.states|
    ensures i < |r'.states| && r'.states[i] == r.states[i]
    ensures i < |r.acts| ==> i < |r'.acts| && r'.acts[i] == r.acts[i]
  {
  }

  lemma AppendIsRun(r: Run, a: Action, s: State)
    requires IsRun(r) && StepOk(r.states[|r.acts|], a, s)
    ensures IsRun(Append(r, a, s)) && Extends(r, Append(r, a, s))
  {
    var r' := Append(r, a, s);
    forall i | 0 <= i < |r'.acts| ensures StepOk(r'.states[i], r'.acts[i], r'.states[i + 1]) {
      if i < |r.acts| {
        assert StepOk(r.states[i], r.acts[i], r.states[i + 1]);
      }
    }
  }

  lemma InTimeBefore(r: Run, r': Run, p: Provider)
    requires Extends(r, r') && RunsInTime(r', p)
    ensures RunsInTime(r, p)
  {
    forall i | 0 <= i < |r.states| ensures InTime(r.states[i], p) {
      assert r.states[i] == r'.states[i];
    }
  }

  /** No action between the two points is by `me`. */
  ghost predicate OnlyOthers(r: Run, from: nat, me: Holder) {
    forall k | from <= k < |r.acts| :: By(r.acts[k]) != Some(me)
  }

  /** Where the process is in its program. */
  datatype Place = BuilderAt(builder: Option<Builder>) | WorkerAt(worker: Option<Worker>)

  function PlaceOf(s: State, me: Holder): Place {
    match me
    case BuilderProc(b) => BuilderAt(if b in s.builders then Some(s.builders[b]) else None)
    case WorkerProc(w) => WorkerAt(if w in s.workers then Some(s.workers[w]) else None)
  }

  ghost function OwnRows(t: Table, me: Holder): set<nat> {
    set id | id in t.rows && t.rows[id].holder == me
  }

  /** A step by somebody else leaves the process where it is and gives it no rows. */
  lemma StepByOther(s: State, a: Action, me: Holder)
    requires Enabled(s, a) && By(a) != Some(me)
    ensures PlaceOf(Apply(s, a), me) == PlaceOf(s, me)
    ensures OwnRows(Apply(s, a).table, me) <= OwnRows(s.table, me)
    ensures s.now <= Apply(s, a).now && s.stamp <= Apply(s, a).stamp && s.cfg == Apply(s, a).cfg
    ensures s.table.nextId <= Apply(s, a).table.nextId
  {
    OnlyTheActorMoves(s, a);
  }

  /** In time, it also leaves the files of the provider a builder works for alone. */
  lemma StepByOtherOnFiles(s: State, a: Action, b: nat)
    requires b in s.builders && LeasesOk(s) && KeepApart(s) && InTime(s, s.builders[b].provider)
    requires Enabled(s, a) && By(a) != Some(BuilderProc(b))
    ensures SameFor(s.files, Apply(s, a).files, s.builders[b].provider)
  {
    hide LeasesOk, KeepApart, FilesAfter, Transaction, SameFor, BuildersAfter, WorkersAfter;
    if IsBuildStep(s, a, s.builders[b].provider) {
      OneBuilderInTime(s, a.b, b);
    } else {
      ForeignStepOnFiles(s, a, s.builders[b].provider);
    }
  }

  lemma SameForTransitive(f: Files, g: Files, h: Files, p: Provider)
    requires SameFor(f, g, p) && SameFor(g, h, p)
    ensures SameFor(f, h, p)
  {
  }

  /** None of the process's own actions since then has changed the volume. */
  ghost predicate FilesQuiet(r: Run, from: nat, me: Holder)
    requires |r.states| == |r.acts| + 1
  {
    forall k | from <= k < |r.acts| && By(r.acts[k]) == Some(me) :: r.states[k + 1].files == r.states[k].files
  }

  /** None of the process's own actions since then has moved a link. */
  ghost predicate LinksQuiet(r: Run, from: nat, me: Holder)
    requires |r.states| == |r.acts| + 1
  {
    forall k | from <= k < |r.acts| && By(r.acts[k]) == Some(me) ::
      r.states[k + 1].files.links == r.states[k].files.links
  }

  /**
   * From `r0` to `r` the process `me` has changed no file, and in time nobody has changed those of
   * the provider it works for.
   */
  ghost predicate Untouched(r0: Run, f0: Files, r: Run, f: Files, me: Holder, p: Option<Provider>) {
    && |r.states| == |r.acts| + 1
    && Extends(r0, r) && FilesQuiet(r, |r0.acts|, me)
    && (p.Some? && RunsInTime(r, p.value) ==> SameFor(f0, f, p.value))
  }

  lemma UntouchedAtFirst(r: Run, f: Files, me: Holder, p: Option<Provider>)
    requires |r.states| == |r.acts| + 1
    ensures Untouched(r, f, r, f, me, p)
  {
  }

  lemma UntouchedExtends(r0: Run, f0: Files, r: Run, f: Files, me: Holder, p: Option<Provider>)
    requires Untouched(r0, f0, r, f, me, p)
    ensures Extends(r0, r) && |r0.acts| <= |r.acts| && FilesQuiet(r, |r0.acts|, me)
  {
  }

  lemma UntouchedByOthers(r0: Run, f0: Files, r1: Run, f1: Files, r2: Run, f2: Files, me: Holder, p: Option<Provider>)
    requires Untouched(r0, f0, r1, f1, me, p) && |r2.states| == |r2.acts| + 1
    requires Extends(r1, r2) && OnlyOthers(r2, |r1.acts|, me)
    requires p.Some? && RunsInTime(r2, p.value) ==> SameFor(f1, f2, p.value)
    ensures Untouched(r0, f0, r2, f2, me, p)
  {
    if p.Some? && RunsInTime(r2, p.value) { InTimeBefore(r1, r2, p.value); }
    forall k | |r0.acts| <= k < |r2.acts| && By(r2.acts[k]) == Some(me)
      ensures r2.states[k + 1].files == r2.states[k].files
    {
      assert r1.acts[k] == r2.acts[k] && r1.states[k] == r2.states[k] && r1.states[k + 1] == r2.states[k + 1];
    }
  }

  lemma UntouchedByOwnStep(r0: Run, f0: Files, r1: Run, f1: Files, r2: Run, me: Holder, p: Option<Provider>)
    requires Untouched(r0, f0, r1, f1, me, p) && |r2.states| == |r2.acts| + 1
    requires Extends(r1, r2) && |r2.acts| == |r1.acts| + 1
    requires r2.states[|r1.acts|].files == r2.states[|r2.acts|].files
    ensures Untouched(r0, f0, r2, f1, me, p)
  {
    if p.Some? && RunsInTime(r2, p.value) { InTimeBefore(r1, r2, p.value); }
    forall k | |r0.acts| <= k < |r2.acts| && By(r2.acts[k]) == Some(me)
      ensures r2.states[k + 1].files == r2.states[k].files
    {
      if k < |r1.acts| {
        assert r1.acts[k] == r2.acts[k] && r1.states[k] == r2.states[k] && r1.states[k + 1] == r2.states[k + 1];
      }
    }
  }

  lemma UntouchedTransitive(r0: Run, f0: Files, r1: Run, f1: Files, r2: Run, f2: Files, me: Holder, p: Option<Provider>)
    requires Untouched(r0, f0, r1, f1, me, p) && Untouched(r1, f1, r2, f2, me, p)
    ensures Untouched(r0, f0, r2, f2, me, p)
  {
    if p.Some? && RunsInTime(r2, p.value) { InTimeBefore(r1, r2, p.value); }
    forall k | |r0.acts| <= k < |r2.acts| && By(r2.acts[k]) == Some(me)
      ensures r2.states[k + 1].files == r2.states[k].files
    {
      if k < |r1.acts| {
        assert r1.acts[k] == r2.acts[k] && r1.states[k] == r2.states[k] && r1.states[k + 1] == r2.states[k + 1];
      }
    }
  }

  // ----- What a builder's own steps make of the volume -----

  /** From `r0` to `r` the process has moved no link. */
  ghost predicate Kept(r0: Run, r: Run, me: Holder) {
    |r.states| == |r.acts| + 1 && Extends(r0, r) && LinksQuiet(r, |r0.acts|, me)
  }

  lemma UntouchedIsKept(r0: Run, f0: Files, r: Run, f: Files, me: Holder, p: Option<Provider>)
    requires Untouched(r0, f0, r, f, me, p)
    ensures Kept(r0, r, me)
  {
  }

  lemma KeptTransitive(r0: Run, r1: Run, r2: Run, me: Holder)
    requires Kept(r0, r1, me) && Kept(r1, r2, me)
    ensures Kept(r0, r2, me)
  {
    forall k | |r0.acts| <= k < |r2.acts| && By(r2.acts[k]) == Some(me)
      ensures r2.states[k + 1].files.links == r2.states[k].files.links
    {
      if k < |r1.acts| {
        assert r1.acts[k] == r2.acts[k] && r1.states[k] == r2.states[k] && r1.states[k + 1] == r2.states[k + 1];
      }
    }
  }

  lemma KeptByOwnStep(r: Run, r': Run, me: Holder)
    requires |r'.states| == |r'.acts| + 1 && Extends(r, r') && |r'.acts| == |r.acts| + 1
    requires r'.states[|r.acts|].files.links == r'.states[|r'.acts|].files.links
    ensures Kept(r, r', me)
  {
  }

  /** In time, the provider's files are as expected. */
  ghost predicate Tracks(r: Run, expected: Files, f: Files, p: Provider) {
    RunsInTime(r, p) ==> SameFor(expected, f, p)
  }

  lemma TracksAtFirst(r: Run, f: Files, p: Provider)
    ensures Tracks(r, f, f, p)
  {
  }

  lemma TracksThroughOthers(r0: Run, r1: Run, e: Files, f1: Files, r2: Run, f2: Files, me: Holder, p: Provider)
    requires Tracks(r1, e, f1, p) && Untouched(r1, f1, r2, f2, me, Some(p))
    ensures Tracks(r2, e, f2, p)
  {
    if RunsInTime(r2, p) {
      InTimeBefore(r1, r2, p);
      SameForTransitive(e, f1, f2, p);
    }
  }

  /** What one's own step does to the files it also does to the expected ones. */
  lemma TracksThroughOwn(r1: Run, e: Files, f1: Files, r2: Run, e': Files, f2: Files, p: Provider)
    requires Tracks(r1, e, f1, p) && Extends(r1, r2)
    requires SameFor(e, f1, p) ==> SameFor(e', f2, p)
    ensures Tracks(r2, e', f2, p)
  {
    if RunsInTime(r2, p) { InTimeBefore(r1, r2, p); }
  }

  lemma TornAlike(e: Files, f: Files, p: Provider, g: Gen, tiles: map<string, nat>)
    requires SameFor(e, f, p) && g.provider == p
    ensures SameFor(Torn(e, g, tiles), Torn(f, g, tiles), p)
  {
  }

  lemma RemovedAlike(e: Files, f: Files, p: Provider, g: Gen)
    requires SameFor(e, f, p)
    ensures SameFor(Removed(e, g), Removed(f, g), p)
  {
  }

  lemma EditedAlike(e: Files, f: Files, p: Provider, g: Gen, d: Dir)
    requires SameFor(e, f, p)
    ensures SameFor(Edited(e, g, d), Edited(f, g, d), p)
  {
  }

  lemma UnstagedAlike(e: Files, f: Files, p: Provider)
    requires SameFor(e, f, p)
    ensures SameFor(Unstaged(e, p), Unstaged(f, p), p)
  {
  }

  lemma StagedAlike(e: Files, f: Files, p: Provider, g: Gen)
    requires SameFor(e, f, p)
    ensures SameFor(Staged(e, p, g), Staged(f, p, g), p)
  {
  }

  lemma SwappedAlike(e: Files, f: Files, p: Provider)
    requires SameFor(e, f, p) && p in f.staged && f.staged[p].provider == p
    ensures SameFor(Swapped(e, p), Swapped(f, p), p)
  {
  }

  lemma TornThenRemoved(f: Files, g: Gen, tiles: map<string, nat>)
    ensures Removed(Torn(f, g, tiles), g) == Removed(f, g)
  {
    assert Removed(Torn(f, g, tiles), g).dirs == Removed(f, g).dirs;
  }

  lemma OthersAlike(e: Files, f: Files, p: Provider)
    requires SameFor(e, f, p)
    ensures LinkOf(e, p) == LinkOf(f, p)
    ensures Others(e.dirs, p, LinkOf(e, p)) == Others(f.dirs, p, LinkOf(f, p))
  {
  }
}
