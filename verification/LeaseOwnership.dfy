/**
 * What holds of the lock table and of every process's leases in every run, whatever the
 * timing: a lease its holder thinks live is in the table under its own name, nobody ever
 * releases another's row, and nobody who is waited for is waiting.
 */
module LeaseOwnership {
  import opened Common
  import opened GraphLocks
  import opened LeaseProtocol

  /** A lease as the process that was granted it knows it. */
  datatype Claim = Claim(lease: Lease, path: Path, mode: Mode, holder: Holder)

  /** The leases the process has been granted and has not released. */
  ghost predicate BuilderClaims(b: nat, me: Builder, c: Claim) {
    || c == Claim(me.lease, ProviderDir(me.provider), Exclusive, BuilderProc(b))
    || ((me.phase.Remove? || me.phase.Unlock?) && me.phase.job.todo != []
        && c == Claim(me.phase.excl, GenerationDir(me.phase.job.todo[0]), Exclusive, BuilderProc(b)))
  }

  ghost predicate WorkerClaims(w: nat, me: Worker, c: Claim) {
    && (me.spot.Check? || me.spot.Drop? || me.spot.Read?)
    && c == Claim(me.spot.lease, GenerationDir(me.spot.gen), Shared, WorkerProc(w))
  }

  ghost predicate Claims(s: State, c: Claim) {
    match c.holder
    case BuilderProc(b) => b in s.builders && BuilderClaims(b, s.builders[b], c)
    case WorkerProc(w) => w in s.workers && WorkerClaims(w, s.workers[w], c)
  }

  /** The table has the claim's own row for as long as it is unexpired, and no other row under its id. */
  ghost predicate Backed(t: Table, now: int, ttl: nat, c: Claim) {
    && c.lease.id < t.nextId
    && (now < c.lease.since + ttl ==> c.lease.id in t.rows)
    && (c.lease.id in t.rows ==>
          t.rows[c.lease.id] == Row(c.path, c.mode, c.holder, c.lease.since, c.lease.since + ttl))
  }

  ghost predicate RowsDated(t: Table, now: int, ttl: nat) {
    forall id | id in t.rows :: t.rows[id].acquired <= now && t.rows[id].expires == t.rows[id].acquired + ttl
  }

  /** Every builder that is removing or about to unlock a generation has one in hand. */
  ghost predicate InHand(s: State) {
    forall b | b in s.builders && (s.builders[b].phase.Remove? || s.builders[b].phase.Unlock?) ::
      s.builders[b].phase.job.todo != []
  }

  ghost predicate LeasesOk(s: State) {
    && TableOk(s.table)
    && RowsDated(s.table, s.now, s.cfg.ttl)
    && InHand(s)
    && forall c | Claims(s, c) :: Backed(s.table, s.now, s.cfg.ttl, c)
  }

  lemma AcquireKeepsClaims(t: Table, now: int, ttl: nat, path: Path, mode: Mode, holder: Holder, tx: int)
    requires TableOk(t) && RowsDated(t, now, ttl) && tx <= now
    ensures var (t', id) := AfterAcquire(t, path, mode, holder, tx, ttl);
            && TableOk(t') && RowsDated(t', now, ttl)
            && (forall c | Backed(t, now, ttl, c) :: Backed(t', now, ttl, c))
            && (id.Some? ==> Backed(t', now, ttl, Claim(Lease(id.value, tx), path, mode, holder)))
  {
    TryAcquireKeepsTable(t, path, mode, holder, tx, ttl);
  }

  /** Releasing by id leaves every lease held by another process or on another path alone. */
  lemma ReleaseKeepsClaims(t: Table, now: int, ttl: nat, gone: Claim)
    requires TableOk(t) && RowsDated(t, now, ttl) && Backed(t, now, ttl, gone)
    ensures var t' := AfterRelease(t, gone.lease.id);
            && TableOk(t') && RowsDated(t', now, ttl)
            && forall c | Backed(t, now, ttl, c) && (c.path != gone.path || c.holder != gone.holder) ::
                 Backed(t', now, ttl, c)
  {
  }

  /** The claim the action gives back, if any. */
  ghost function FreedClaim(s: State, a: Action): Option<Claim>
    requires Enabled(s, a)
  {
    match a
    case BUnlock(b) =>
      var me := s.builders[b];
      Some(Claim(me.phase.excl, GenerationDir(me.phase.job.todo[0]), Exclusive, BuilderProc(b)))
    case BLeave(b) => Some(Claim(s.builders[b].lease, ProviderDir(s.builders[b].provider), Exclusive, BuilderProc(b)))
    case WDrop(w) => Some(Claim(s.workers[w].spot.lease, GenerationDir(s.workers[w].spot.gen), Shared, WorkerProc(w)))
    case WDone(w) => Some(Claim(s.workers[w].spot.lease, GenerationDir(s.workers[w].spot.gen), Shared, WorkerProc(w)))
    case _ => None
  }

  ghost predicate GivenBack(s: State, a: Action, c: Claim)
    requires Enabled(s, a)
  {
    FreedClaim(s, a).Some? && c.path == FreedClaim(s, a).value.path && c.holder == FreedClaim(s, a).value.holder
  }

  ghost predicate Granted(s: State, a: Action, c: Claim)
    requires Enabled(s, a)
  {
    && Asked(s, a).Some? && Transaction(s, a).1.Some?
    && var (path, mode, holder, tx) := Asked(s, a).value;
       c == Claim(Lease(Transaction(s, a).1.value, tx), path, mode, holder)
  }

  /** Nobody's place in the program moves but that of the process that acts. */
  lemma OnlyTheActorMoves(s: State, a: Action)
    requires Enabled(s, a)
    ensures forall b | By(a) != Some(BuilderProc(b)) ::
              (b in Apply(s, a).builders <==> b in s.builders)
                && (b in s.builders ==> Apply(s, a).builders[b] == s.builders[b])
    ensures forall w | By(a) != Some(WorkerProc(w)) ::
              (w in Apply(s, a).workers <==> w in s.workers)
                && (w in s.workers ==> Apply(s, a).workers[w] == s.workers[w])
  {
  }

  /** A claim held after the action was held before and not given up by it, or was granted by it. */
  lemma ClaimsAfterStep(s: State, a: Action, c: Claim)
    requires InHand(s) && Enabled(s, a) && Claims(Apply(s, a), c)
    ensures (Claims(s, c) && !GivenBack(s, a, c)) || Granted(s, a, c)
  {
    OnlyTheActorMoves(s, a);
    if By(a) == Some(c.holder) {
      match c.holder
      case BuilderProc(b) => BuilderClaimsAfterStep(s, a, b, c);
      case WorkerProc(w) => WorkerClaimsAfterStep(s, a, w, c);
    }
  }

  lemma BuilderClaimsAfterStep(s: State, a: Action, b: nat, c: Claim)
    requires InHand(s) && Enabled(s, a) && Claims(Apply(s, a), c)
    requires c.holder == BuilderProc(b) && By(a) == Some(c.holder)
    ensures (Claims(s, c) && !GivenBack(s, a, c)) || Granted(s, a, c)
  {
  }

  lemma WorkerClaimsAfterStep(s: State, a: Action, w: nat, c: Claim)
    requires InHand(s) && Enabled(s, a) && Claims(Apply(s, a), c)
    requires c.holder == WorkerProc(w) && By(a) == Some(c.holder)
    ensures (Claims(s, c) && !GivenBack(s, a, c)) || Granted(s, a, c)
  {
  }

  lemma StepKeepsInHand(s: State, a: Action)
    requires InHand(s) && Enabled(s, a)
    ensures InHand(Apply(s, a))
  {
    OnlyTheActorMoves(s, a);
  }

  /** The transaction keeps the table in order, keeps every claim not given back, and backs the one it grants. */
  lemma StepKeepsTable(s: State, a: Action)
    requires LeasesOk(s) && Enabled(s, a)
    ensures var t := Transaction(s, a).0;
            && TableOk(t) && RowsDated(t, s.now, s.cfg.ttl)
            && (forall c | Claims(s, c) && !GivenBack(s, a, c) :: Backed(t, s.now, s.cfg.ttl, c))
            && (forall c | Granted(s, a, c) :: Backed(t, s.now, s.cfg.ttl, c))
  {
    if Asked(s, a).Some? {
      var (path, mode, holder, tx) := Asked(s, a).value;
      AcquireKeepsClaims(s.table, s.now, s.cfg.ttl, path, mode, holder, tx);
    } else if Freed(s, a).Some? {
      assert Claims(s, FreedClaim(s, a).value);
      ReleaseKeepsClaims(s.table, s.now, s.cfg.ttl, FreedClaim(s, a).value);
    }
  }

  lemma StepKeepsLeases(s: State, a: Action)
    requires LeasesOk(s) && Enabled(s, a)
    ensures LeasesOk(Apply(s, a))
  {
    var s' := Apply(s, a);
    StepKeepsInHand(s, a);
    StepKeepsTable(s, a);
    forall c | Claims(s', c) ensures Backed(s'.table, s'.now, s'.cfg.ttl, c) {
      ClaimsAfterStep(s, a, c);
    }
  }

  /** In every state of every run, with no assumption on how long anything takes. */
  lemma {:induction false} EveryRunKeepsLeases(r: Run, i: nat)
    requires IsRun(r) && i < |r.states|
    ensures LeasesOk(r.states[i]) && r.states[i].cfg == r.states[0].cfg
  {
    if i > 0 {
      EveryRunKeepsLeases(r, i - 1);
      assert StepOk(r.states[i - 1], r.acts[i - 1], r.states[i]);
      StepKeepsLeases(r.states[i - 1], r.acts[i - 1]);
    }
  }

  // ----- What follows in every run -----

  /** A lease its holder may still think live has its row, and no live row of another process conflicts with it. */
  lemma LiveLeasesExclude(s: State, c: Claim, d: Claim)
    requires LeasesOk(s) && Claims(s, c) && Claims(s, d)
    requires Live(s, c.lease) && Live(s, d.lease) && c.path == d.path
    ensures c.lease.id in s.table.rows && Unexpired(s.table.rows[c.lease.id], s.now)
    ensures c == d || !Excludes(c.mode, d.mode)
  {
    assert Backed(s.table, s.now, s.cfg.ttl, c) && Backed(s.table, s.now, s.cfg.ttl, d);
  }

  /** Leaving a context manager deletes at most the row of the process that leaves it. */
  lemma ReleaseRemovesOwnRowOnly(r: Run, i: nat)
    requires IsRun(r) && i < |r.acts| && Enabled(r.states[i], r.acts[i]) && Freed(r.states[i], r.acts[i]).Some?
    ensures var rows, rows' := r.states[i].table.rows, r.states[i + 1].table.rows;
            && rows' == rows - {Freed(r.states[i], r.acts[i]).value.id}
            && forall id | id in rows && id !in rows' :: Some(rows[id].holder) == By(r.acts[i])
  {
    var s, a := r.states[i], r.acts[i];
    EveryRunKeepsLeases(r, i);
    assert StepOk(s, a, r.states[i + 1]);
    var c := FreedClaim(s, a).value;
    assert Claims(s, c) && Backed(s.table, s.now, s.cfg.ttl, c);
  }

  /** At most one builder of a provider is within its lease. */
  lemma OneBuilderInTime(s: State, b: nat, c: nat)
    requires LeasesOk(s) && b in s.builders && c in s.builders
    requires Live(s, s.builders[b].lease) && Live(s, s.builders[c].lease)
    requires s.builders[b].provider == s.builders[c].provider
    ensures b == c
  {
    var p := ProviderDir(s.builders[b].provider);
    LiveLeasesExclude(s, Claim(s.builders[b].lease, p, Exclusive, BuilderProc(b)),
                      Claim(s.builders[c].lease, p, Exclusive, BuilderProc(c)));
  }

  // ----- Waiting -----

  /** What the process is retrying for: only generation leases are waited on. */
  ghost function WaitsOn(s: State, x: Holder): Option<(Path, Mode)> {
    match x
    case BuilderProc(b) =>
      if b in s.builders && s.builders[b].phase.Prune? && s.builders[b].phase.job.todo != [] then
        Some((GenerationDir(s.builders[b].phase.job.todo[0]), Exclusive))
      else None
    case WorkerProc(w) =>
      if w in s.workers && s.workers[w].spot.Lock? then Some((GenerationDir(s.workers[w].spot.gen), Shared))
      else None
  }

  /** `x` is refused a lease because of a row that `y` claims. */
  ghost predicate WaitsFor(s: State, x: Holder, y: Holder) {
    && WaitsOn(s, x).Some?
    && exists c :: Claims(s, c) && c.holder == y && c.lease.id in s.table.rows
                   && c.path == WaitsOn(s, x).value.0 && Excludes(c.mode, WaitsOn(s, x).value.1)
  }

  /** A chain of processes each waiting for the next. */
  ghost predicate WaitChain(s: State, chain: seq<Holder>) {
    forall i | 0 <= i < |chain| - 1 :: WaitsFor(s, chain[i], chain[i + 1])
  }

  lemma WaitedForDoesNotWait(s: State, x: Holder, y: Holder)
    requires LeasesOk(s) && WaitsFor(s, x, y)
    ensures x != y && WaitsOn(s, y) == None
  {
  }

  /** Whoever is waited for is not waiting, so no chain of waits has more than one link, and none is a cycle. */
  lemma NoDeadlock(r: Run, i: nat, chain: seq<Holder>)
    requires IsRun(r) && i < |r.states| && WaitChain(r.states[i], chain)
    ensures |chain| <= 2
    ensures |chain| == 2 ==> chain[0] != chain[1] && WaitsOn(r.states[i], chain[1]) == None
  {
    var s := r.states[i];
    EveryRunKeepsLeases(r, i);
    if |chain| > 2 {
      WaitedForDoesNotWait(s, chain[1], chain[2]);
    }
    if |chain| >= 2 {
      WaitedForDoesNotWait(s, chain[0], chain[1]);
    }
  }

  /**
   * A row, be its holder alive, slow or crashed, keeps nobody out once the TTL has passed
   * since the transaction that inserted it.
   */
  lemma BlocksForLessThanTheTtl(r: Run, i: nat, id: nat, path: Path, mode: Mode, holder: Holder, tx: int)
    requires IsRun(r) && i < |r.states| && id in r.states[i].table.rows && tx <= r.states[i].now
    requires r.states[i].table.rows[id].acquired + r.states[i].cfg.ttl <= tx
    requires AfterAcquire(r.states[i].table, path, mode, holder, tx, r.states[i].cfg.ttl).1 == None
    ensures var rows := r.states[i].table.rows;
            exists other | other in rows ::
              && other != id && rows[other].path == path && Excludes(rows[other].mode, mode)
              && tx < rows[other].acquired + r.states[i].cfg.ttl
  {
    var s := r.states[i];
    EveryRunKeepsLeases(r, i);
    var reaped := Reap(s.table, tx);
    var other :| other in reaped.rows && reaped.rows[other].path == path && Excludes(reaped.rows[other].mode, mode);
    assert other in s.table.rows && other != id;
  }
}
