/** The build status file and the stage timings, as `BuildStatus` keeps them. */
module BuildStatusFile {
  import opened Common

  datatype BuildStage =
    | Pruning | DownloadingPbf | UpdatingPbf | BuildingTiles | BuildingElevation | EnhancingTiles | Swapping

  datatype BuildState = Unknown | Idling | Building | GaveUp

  datatype NextBuild = DueAt(when: int) | ExternallyControlled

  /** What is written to `build_status.json`. */
  datatype Report = Report(
    state: BuildState,
    stage: Option<BuildStage>,
    generation: Option<string>,
    startedAt: Option<int>,
    updatedAt: Option<int>,
    nextBuildAt: Option<NextBuild>,
    lastError: Option<string>)

  const FRESH := Report(Unknown, None, None, None, None, None, None)

  const HEARTBEAT_INTERVAL := 10.0

  /** The calls a build makes. */
  datatype Call =
    | StageCall(stage: BuildStage)
    | GenerationCall(name: string)
    | HeartbeatCall
    | IdleCall(next: Option<NextBuild>)
    | FailedCall(error: string)

  /** What a call records, before the time of the write is added. */
  function AfterCall(r: Report, c: Call, wall: int): Report {
    match c
    case StageCall(stage) =>
      var begun :=
        if r.state != Building then r.(startedAt := Some(wall), lastError := None, generation := None) else r;
      begun.(state := Building, stage := Some(stage), nextBuildAt := None)
    case GenerationCall(name) => r.(generation := Some(name))
    case HeartbeatCall => r
    case IdleCall(next) => r.(state := Idling, stage := None, nextBuildAt := next)
    case FailedCall(error) => r.(state := GaveUp, lastError := Some(error))
  }

  /** What a reader of the file may conclude from the state. */
  ghost predicate ReportOk(r: Report) {
    && (r.state == Building ==> r.stage.Some? && r.nextBuildAt == None && r.startedAt.Some? && r.lastError == None)
    && (r.state == Idling ==> r.stage == None)
    && (r.state == GaveUp ==> r.lastError.Some?)
    && (r.state == Unknown ==> r == FRESH.(generation := r.generation, updatedAt := r.updatedAt))
  }

  /** The report after a sequence of calls, each with the wall clock it was made at. */
  function Replay(calls: seq<(Call, int)>): Report {
    if |calls| == 0 then FRESH
    else AfterCall(Replay(calls[..|calls| - 1]), calls[|calls| - 1].0, calls[|calls| - 1].1)
  }

  lemma {:induction false} EveryReportIsOk(calls: seq<(Call, int)>)
    ensures ReportOk(Replay(calls))
  {
    if |calls| > 0 {
      EveryReportIsOk(calls[..|calls| - 1]);
    }
  }

  lemma OneMoreCall(calls: seq<(Call, int)>, c: Call, wall: int)
    ensures Replay(calls + [(c, wall)]) == AfterCall(Replay(calls), c, wall)
    ensures forall k | 0 <= k <= |calls| :: (calls + [(c, wall)])[..k] == calls[..k]
  {
    assert (calls + [(c, wall)])[..|calls|] == calls;
  }

  /** The same report, but for the time of the last attempt to write it. */
  ghost predicate SameBut(r: Report, s: Report) {
    r == s.(updatedAt := r.updatedAt)
  }

  ghost predicate EndsBuild(c: Call) {
    c.IdleCall? || c.FailedCall?
  }

  /** From one stage to the next the build keeps the time it began at, until it goes idle or fails. */
  lemma {:induction false} StartIsKeptWithinABuild(calls: seq<(Call, int)>, more: seq<(Call, int)>)
    requires Replay(calls).state == Building
    requires forall i | 0 <= i < |more| :: !EndsBuild(more[i].0)
    ensures Replay(calls + more).state == Building
    ensures Replay(calls + more).startedAt == Replay(calls).startedAt
    decreases |more|
  {
    if |more| == 0 {
      assert calls + more == calls;
    } else {
      StartIsKeptWithinABuild(calls, more[..|more| - 1]);
      assert (calls + more)[..|calls + more| - 1] == calls + more[..|more| - 1];
    }
  }

  // ----- Stage timings -----

  /** One `build.stage.duration` metric: the stage it is tagged with and the span it covers. */
  datatype Timing = Timing(stage: Option<BuildStage>, begun: real, ended: real)

  /** The spans lie between `since` and `until`, one after the other. */
  ghost predicate Consecutive(timings: seq<Timing>, since: real, until: real) {
    && since <= until
    && (forall i | 0 <= i < |timings| :: since <= timings[i].begun <= timings[i].ended <= until)
    && (forall i, j | 0 <= i < j < |timings| :: timings[i].ended <= timings[j].begun)
  }

  function TotalTime(timings: seq<Timing>): real {
    if |timings| == 0 then 0.0
    else TotalTime(timings[..|timings| - 1]) + (timings[|timings| - 1].ended - timings[|timings| - 1].begun)
  }

  /** The reported durations add up to no more than the time that passed. */
  lemma {:induction false} TotalTimeIsBounded(timings: seq<Timing>, since: real, until: real)
    requires Consecutive(timings, since, until)
    ensures 0.0 <= TotalTime(timings) <= until - since
  {
    if |timings| > 0 {
      var last := timings[|timings| - 1];
      TotalTimeIsBounded(timings[..|timings| - 1], since, last.begun);
    }
  }

  /** Every entered stage but the current one has been reported, once, under its own name, from when it was entered. */
  ghost predicate SpansOk(timings: seq<Timing>, entered: seq<(BuildStage, real)>, started: Option<real>,
                          stage: Option<BuildStage>, bound: real, now: real)
  {
    && |entered| == |timings| + (if started.Some? then 1 else 0)
    && (forall i | 0 <= i < |timings| :: timings[i].stage == Some(entered[i].0) && timings[i].begun == entered[i].1)
    && Consecutive(timings, bound, if started.Some? then started.value else now)
    && (started.Some? ==>
          started.value <= now && stage == Some(entered[|timings|].0) && started.value == entered[|timings|].1)
  }

  lemma SpanOpens(timings: seq<Timing>, entered: seq<(BuildStage, real)>, stage: BuildStage, bound: real, now: real)
    requires SpansOk(timings, entered, None, None, bound, now)
    ensures SpansOk(timings, entered + [(stage, now)], Some(now), Some(stage), bound, now)
  {
  }

  /** Time goes on; without an open span it does not matter which stage is the current one. */
  lemma SpansStay(timings: seq<Timing>, entered: seq<(BuildStage, real)>, started: Option<real>,
                  stage: Option<BuildStage>, stage': Option<BuildStage>, bound: real, now: real, later: real)
    requires SpansOk(timings, entered, started, stage, bound, now) && now <= later
    requires started.Some? ==> stage == stage'
    ensures SpansOk(timings, entered, started, stage', bound, later)
    ensures |entered| == |timings| + (if started.Some? then 1 else 0)
  {
  }

  /** `time.monotonic` and `datetime.now`. */
  class Clock {
    var now: real

    constructor () {
      var t: real := *;
      now := t;
    }

    method Monotonic() returns (t: real)
      modifies this
      ensures t == now >= old(now)
    {
      t := *;
      if t < now {
        t := now;
      }
      now := t;
    }

    method Wall() returns (t: int) {
      t := *;
    }
  }

  class BuildStatus {
    const clock: Clock
    var path: Option<string>
    var report: Report
    var stageStarted: Option<real>
    var lastHeartbeat: real

    /** What has been sent to statsd since `bind`, and what has been put into the file since then. */
    var timings: seq<Timing>
    var file: Option<Report>

    /** The stages entered since `bind`, the time of `bind` and of the last attempt to write since then. */
    ghost var entered: seq<(BuildStage, real)>
    ghost var bound: real
    ghost var written: Option<real>

    /** The calls since `bind`, and how many of them the file shows. */
    ghost var calls: seq<(Call, int)>
    ghost var shown: nat

    /** The report is that of all the calls so far; a reader of the file sees that of those up to some moment. */
    ghost predicate ReplayOk()
      reads this
    {
      && SameBut(report, Replay(calls))
      && (file.Some? ==> shown <= |calls| && SameBut(file.value, Replay(calls[..shown])))
    }

    ghost predicate TimingsOk()
      reads this, clock
    {
      SpansOk(timings, entered, stageStarted, report.stage, bound, clock.now)
    }

    ghost predicate Valid()
      reads this, clock
    {
      && ReplayOk() && ReportOk(report) && (file.Some? ==> ReportOk(file.value))
      && (stageStarted.Some? <==> report.state == Building)
      && TimingsOk()
      && lastHeartbeat == (if written.Some? then written.value else 0.0)
      && (written.Some? ==> written.value <= clock.now)
    }

    constructor (clock: Clock)
      ensures Valid() && path == None && report == FRESH && this.clock == clock
    {
      this.clock := clock;
      path, report, stageStarted, lastHeartbeat := None, FRESH, None, 0.0;
      timings, file := [], None;
      entered, bound, written, calls, shown := [], clock.now, None, [], 0;
    }

    method Bind(to: string)
      modifies this
      ensures Valid() && path == Some(to) && report == FRESH && entered == [] && timings == [] && bound == clock.now
      ensures calls == [] && file == None
    {
      path, report, stageStarted, lastHeartbeat := Some(to), FRESH, None, 0.0;
      timings, file := [], None;
      entered, bound, written, calls, shown := [], clock.now, None, [], 0;
    }

    /** Reports the stage that just ended, if one was running. */
    method CloseStage()
      requires Valid()
      modifies this`timings, this`stageStarted, clock
      ensures TimingsOk() && stageStarted == None && clock.now >= old(clock.now)
      ensures old(stageStarted) == None ==> timings == old(timings)
      ensures old(stageStarted).Some? ==>
                timings == old(timings) + [Timing(old(report.stage), old(stageStarted).value, clock.now)]
    {
      if stageStarted == None {
        return;
      }
      var now := clock.Monotonic();
      timings := timings + [Timing(report.stage, stageStarted.value, now)];
      stageStarted := None;
    }

    /** Notes the call that has just changed the report from `was`. */
    ghost method Note(was: Report, c: Call, wall: int)
      requires SameBut(was, Replay(calls)) && report == AfterCall(was, c, wall)
      requires file.Some? ==> shown <= |calls| && SameBut(file.value, Replay(calls[..shown]))
      modifies this`calls
      ensures calls == old(calls) + [(c, wall)] && ReplayOk()
      ensures ReportOk(report) && (file.Some? ==> ReportOk(file.value))
    {
      OneMoreCall(calls, c, wall);
      calls := calls + [(c, wall)];
      EveryReportIsOk(calls);
      if file.Some? { EveryReportIsOk(calls[..shown]); }
    }

    /**
     * Writes the file, all at once; an unbound status raises, an `OSError` is swallowed. `refused`
     * tells whether there was one.
     */
    method Write() returns (ok: bool, ghost refused: bool)
      requires ReplayOk() && ReportOk(report) && (file.Some? ==> ReportOk(file.value))
      modifies this`lastHeartbeat, this`report, this`file, this`written, this`shown, clock
      ensures ReplayOk() && ReportOk(report) && (file.Some? ==> ReportOk(file.value))
      ensures clock.now >= old(clock.now)
      ensures ok <==> path.Some?
      ensures ok ==> written == Some(clock.now) && lastHeartbeat == clock.now
      ensures ok ==> report == old(report).(updatedAt := report.updatedAt) && report.updatedAt.Some?
      ensures if ok && !refused then file == Some(report) && shown == |calls|
              else file == old(file) && shown == old(shown)
      ensures !ok ==> lastHeartbeat == old(lastHeartbeat) && report == old(report)
      ensures !ok ==> written == old(written)
    {
      if path == None {
        return false, false;
      }
      lastHeartbeat := clock.Monotonic();
      written := Some(lastHeartbeat);
      var wall := clock.Wall();
      report := report.(updatedAt := Some(wall));
      var failed: bool := *;
      if !failed {
        assert calls[..|calls|] == calls;
        file, shown := Some(report), |calls|;
      }
      return true, failed;
    }

    /** Starts the timer of a stage. */
    method StartTimer(stage: BuildStage)
      requires TimingsOk() && stageStarted == None
      modifies this`stageStarted, this`entered, clock
      ensures clock.now >= old(clock.now) && stageStarted == Some(clock.now)
      ensures entered == old(entered) + [(stage, clock.now)]
      ensures SpansOk(timings, entered, stageStarted, Some(stage), bound, clock.now)
    {
      var now := clock.Monotonic();
      SpanOpens(timings, entered, stage, bound, now);
      stageStarted := Some(now);
      entered := entered + [(stage, now)];
    }

    /** Records the stage; the first one of a build begins it. */
    method EnterStage(stage: BuildStage, wall: int)
      requires ReplayOk()
      modifies this`report, this`calls
      ensures report == AfterCall(old(report), StageCall(stage), wall)
      ensures report.state == Building && report.stage == Some(stage) && report.nextBuildAt == None
      ensures if old(report).state == Building
              then && report.startedAt == old(report).startedAt && report.generation == old(report).generation
                   && report.lastError == old(report).lastError
              else report.startedAt == Some(wall) && report.generation == None && report.lastError == None
      ensures calls == old(calls) + [(StageCall(stage), wall)]
      ensures ReplayOk() && ReportOk(report) && (file.Some? ==> ReportOk(file.value))
    {
      if report.state != Building {
        report := report.(startedAt := Some(wall), lastError := None, generation := None);
      }
      report := report.(state := Building, stage := Some(stage), nextBuildAt := None);
      Note(old(report), StageCall(stage), wall);
    }

    /** The build moved on to a stage, at the reading `wall` of the wall clock. */
    method Stage(stage: BuildStage) returns (ok: bool, wall: int, ghost refused: bool)
      requires Valid()
      modifies this, clock
      ensures Valid() && path == old(path) && bound == old(bound) && clock.now >= old(clock.now)
      ensures ok <==> path.Some?
      ensures report == AfterCall(old(report), StageCall(stage), wall).(updatedAt := report.updatedAt)
      // The stage that begins a build sets its start and clears what the last one left; the others keep all that.
      ensures report.state == Building && report.stage == Some(stage) && report.nextBuildAt == None
      ensures if old(report).state == Building
              then && report.startedAt == old(report).startedAt && report.generation == old(report).generation
                   && report.lastError == old(report).lastError
              else report.startedAt == Some(wall) && report.generation == None && report.lastError == None
      ensures |entered| == |old(entered)| + 1 && entered[..|old(entered)|] == old(entered)
      ensures entered[|old(entered)|].0 == stage
      ensures old(timings) <= timings
      ensures calls == old(calls) + [(StageCall(stage), wall)]
      ensures file == if ok && !refused then Some(report) else old(file)
    {
      hide SpansOk, SameBut, Replay, ReportOk, AfterCall;
      CloseStage();
      StartTimer(stage);
      ghost var begun := clock.now;
      wall := clock.Wall();
      EnterStage(stage, wall);
      ok, refused := Write();
      SpansStay(timings, entered, stageStarted, Some(stage), Some(stage), bound, begun, clock.now);
    }

    /** The running build writes into this generation. */
    method Generation(name: string) returns (ok: bool, ghost refused: bool)
      requires Valid()
      modifies this, clock
      ensures Valid() && path == old(path) && bound == old(bound) && clock.now >= old(clock.now)
      ensures ok <==> path.Some?
      ensures report == AfterCall(old(report), GenerationCall(name), 0).(updatedAt := report.updatedAt)
      ensures report.generation == Some(name)
      ensures report.(generation := None, updatedAt := None) == old(report).(generation := None, updatedAt := None)
      ensures entered == old(entered) && timings == old(timings)
      ensures calls == old(calls) + [(GenerationCall(name), 0)]
      ensures file == if ok && !refused then Some(report) else old(file)
    {
      report := report.(generation := Some(name));
      Note(old(report), GenerationCall(name), 0);
      ok, refused := Write();
    }

    /** Refreshes the file if, at the reading `at` of the clock, the interval has passed since the last write. */
    method Heartbeat() returns (ok: bool, at: real, ghost refused: bool)
      requires Valid()
      modifies this, clock
      ensures Valid() && path == old(path) && bound == old(bound) && old(clock.now) <= at <= clock.now
      ensures report == old(report).(updatedAt := report.updatedAt) && entered == old(entered)
      ensures timings == old(timings)
      // A heartbeat that writes comes no sooner than the interval after the previous write.
      ensures written != old(written) && written.Some? && old(written).Some? ==>
                written.value - old(written).value >= HEARTBEAT_INTERVAL
      // After a heartbeat the last attempt to write is less than the interval old, or, without
      // any since `bind`, the clock itself is below the interval.
      ensures ok ==> at - (if written.Some? then written.value else 0.0) < HEARTBEAT_INTERVAL
      // It raises exactly when it is due on an unbound status.
      ensures !ok <==> path == None && at - old(lastHeartbeat) >= HEARTBEAT_INTERVAL
      ensures file == if ok && !refused && at - old(lastHeartbeat) >= HEARTBEAT_INTERVAL then Some(report)
              else old(file)
    {
      at := clock.Monotonic();
      if at - lastHeartbeat < HEARTBEAT_INTERVAL {
        return true, at, false;
      }
      ok, refused := Write();
    }

    /** No build is running. */
    method Idle(next: Option<NextBuild>) returns (ok: bool, ghost refused: bool)
      requires Valid()
      modifies this, clock
      ensures Valid() && path == old(path) && bound == old(bound) && clock.now >= old(clock.now)
      ensures ok <==> path.Some?
      ensures report == AfterCall(old(report), IdleCall(next), 0).(updatedAt := report.updatedAt)
      // The generation, its start and the last error stay in the report.
      ensures report.state == Idling && report.stage == None && report.nextBuildAt == next
      ensures report.generation == old(report).generation && report.startedAt == old(report).startedAt
      ensures report.lastError == old(report).lastError
      ensures entered == old(entered) && old(timings) <= timings && |timings| == |entered|
      ensures calls == old(calls) + [(IdleCall(next), 0)]
      ensures file == if ok && !refused then Some(report) else old(file)
    {
      hide SpansOk, SameBut, Replay, ReportOk;
      CloseStage();
      ghost var ended, last := clock.now, report.stage;
      report := report.(state := Idling, stage := None, nextBuildAt := next);
      Note(old(report), IdleCall(next), 0);
      ok, refused := Write();
      SpansStay(timings, entered, stageStarted, last, report.stage, bound, ended, clock.now);
    }

    /** The build gave up; the stage it died on stays in the report. */
    method Failed(error: string) returns (ok: bool, ghost refused: bool)
      requires Valid()
      modifies this, clock
      ensures Valid() && path == old(path) && bound == old(bound) && clock.now >= old(clock.now)
      ensures ok <==> path.Some?
      ensures report == AfterCall(old(report), FailedCall(error), 0).(updatedAt := report.updatedAt)
      // The stage it died on stays in the report, with the generation and the start of the build.
      ensures report.state == GaveUp && report.lastError == Some(error) && report.stage == old(report).stage
      ensures report.generation == old(report).generation && report.startedAt == old(report).startedAt
      ensures report.nextBuildAt == old(report).nextBuildAt
      ensures entered == old(entered) && old(timings) <= timings && |timings| == |entered|
      ensures calls == old(calls) + [(FailedCall(error), 0)]
      ensures file == if ok && !refused then Some(report) else old(file)
    {
      hide SpansOk, SameBut, Replay, ReportOk;
      CloseStage();
      ghost var ended, last := clock.now, report.stage;
      report := report.(state := GaveUp, lastError := Some(error));
      Note(old(report), FailedCall(error), 0);
      ok, refused := Write();
      SpansStay(timings, entered, stageStarted, last, report.stage, bound, ended, clock.now);
    }
  }
}
