/**
 * The `graph_locks` table: shared and exclusive leases on directories, each with an expiry.
 * A transaction carries its own timestamp, which may lag behind the clock and behind the
 * timestamps of transactions that were committed before it.
 */
module GraphLocks {
  import opened Common

  datatype Mode = Shared | Exclusive

  /** What a lease can be taken on. */
  datatype Path = ProviderDir(provider: Provider) | GenerationDir(gen: Gen)

  /** The processes that take leases. */
  datatype Holder = BuilderProc(b: nat) | WorkerProc(w: nat)

  datatype Row = Row(path: Path, mode: Mode, holder: Holder, acquired: int, expires: int)

  /** The rows by id, and the next value of the id sequence. */
  datatype Table = Table(rows: map<nat, Row>, nextId: nat)

  const EMPTY := Table(map[], 0)

  /** Whether a lease with mode `held` keeps out a request for mode `wanted`. */
  predicate Excludes(held: Mode, wanted: Mode) {
    held == Exclusive || wanted == Exclusive
  }

  predicate Unexpired(r: Row, now: int) {
    now < r.expires
  }

  /** Some row left in the table keeps the request out. */
  predicate Blocked(t: Table, path: Path, mode: Mode) {
    exists id | id in t.rows :: t.rows[id].path == path && Excludes(t.rows[id].mode, mode)
  }

  function Reap(t: Table, now: int): Table {
    t.(rows := map id | id in t.rows && Unexpired(t.rows[id], now) :: t.rows[id])
  }

  /** One transaction of `_try_acquire`: the table it commits and the id it returns. */
  function AfterAcquire(t: Table, path: Path, mode: Mode, holder: Holder, tx: int, ttl: nat): (Table, Option<nat>)
  {
    var reaped := Reap(t, tx);
    if Blocked(reaped, path, mode) then
      (reaped, None)
    else
      (Table(reaped.rows[t.nextId := Row(path, mode, holder, tx, tx + ttl)], t.nextId + 1), Some(t.nextId))
  }

  /** One transaction of `_release`. */
  function AfterRelease(t: Table, id: nat): Table {
    t.(rows := t.rows - {id})
  }

  /**
   * A path is held either by any number of shared rows or by exactly one exclusive row, and
   * ids that were not handed out yet are not in use.
   */
  ghost predicate TableOk(t: Table) {
    && (forall id | id in t.rows :: id < t.nextId)
    && (forall i, j | i in t.rows && j in t.rows && i != j && t.rows[i].path == t.rows[j].path ::
          t.rows[i].mode == Shared && t.rows[j].mode == Shared)
  }

  lemma TryAcquireKeepsTable(t: Table, path: Path, mode: Mode, holder: Holder, tx: int, ttl: nat)
    requires TableOk(t)
    ensures TableOk(AfterAcquire(t, path, mode, holder, tx, ttl).0)
  {
    var reaped := Reap(t, tx);
    if !Blocked(reaped, path, mode) {
      assert forall id | id in reaped.rows && reaped.rows[id].path == path ::
          !Excludes(reaped.rows[id].mode, mode);
    }
  }

  // ----- The table against a table that is never reaped -----

  datatype Op = Acquire(path: Path, mode: Mode, holder: Holder, tx: int) | Free(id: nat)

  function Exec(t: Table, op: Op, ttl: nat): (Table, Option<nat>) {
    match op
    case Acquire(path, mode, holder, tx) => AfterAcquire(t, path, mode, holder, tx, ttl)
    case Free(id) => (AfterRelease(t, id), None)
  }

  /**
   * The table after a history of transactions, newest last, together with their answers.
   */
  function ExecAll(ops: seq<Op>, ttl: nat): (r: (Table, seq<Option<nat>>))
    ensures |r.1| == |ops|
  {
    if |ops| == 0 then (EMPTY, [])
    else
      var before := ExecAll(ops[..|ops| - 1], ttl);
      var after := Exec(before.0, ops[|ops| - 1], ttl);
      (after.0, before.1 + [after.1])
  }

  /** Every table that any history of transactions can produce is well formed, whatever timestamps they carry. */
  lemma {:induction false} EveryTableIsOk(ops: seq<Op>, ttl: nat)
    ensures TableOk(ExecAll(ops, ttl).0)
  {
    if |ops| > 0 {
      EveryTableIsOk(ops[..|ops| - 1], ttl);
      match ops[|ops| - 1]
      case Acquire(path, mode, holder, tx) =>
        TryAcquireKeepsTable(ExecAll(ops[..|ops| - 1], ttl).0, path, mode, holder, tx, ttl);
      case Free(id) =>
    }
  }

  /**
   * The leases as the documentation describes them: a lease exists until it is released, and
   * it keeps others out until it expires. Nothing is ever reaped.
   */
  function LeaseExec(l: Table, op: Op, ttl: nat): (Table, Option<nat>) {
    match op
    case Acquire(path, mode, holder, tx) =>
      if exists id | id in l.rows ::
           Unexpired(l.rows[id], tx) && l.rows[id].path == path && Excludes(l.rows[id].mode, mode)
      then (l, None)
      else (Table(l.rows[l.nextId := Row(path, mode, holder, tx, tx + ttl)], l.nextId + 1), Some(l.nextId))
    case Free(id) => (AfterRelease(l, id), None)
  }

  function LeaseExecAll(ops: seq<Op>, ttl: nat): (r: (Table, seq<Option<nat>>))
    ensures |r.1| == |ops|
  {
    if |ops| == 0 then (EMPTY, [])
    else
      var before := LeaseExecAll(ops[..|ops| - 1], ttl);
      var after := LeaseExec(before.0, ops[|ops| - 1], ttl);
      (after.0, before.1 + [after.1])
  }

  /** No acquiring transaction carries an older timestamp than one committed before it. */
  ghost predicate InOrder(ops: seq<Op>) {
    forall i, j | 0 <= i < j < |ops| && ops[i].Acquire? && ops[j].Acquire? :: ops[i].tx <= ops[j].tx
  }

  /** The leases that are still unexpired at `now`, by id. */
  function View(t: Table, now: int): map<nat, Row> {
    map id | id in t.rows && Unexpired(t.rows[id], now) :: t.rows[id]
  }

  /** The table holds a part of the leases, and all of those unexpired at `horizon`. */
  ghost predicate Represents(t: Table, l: Table, horizon: int) {
    && t.nextId == l.nextId
    && (forall id | id in t.rows :: id in l.rows && t.rows[id] == l.rows[id])
    && (forall id | id in l.rows && Unexpired(l.rows[id], horizon) :: id in t.rows)
  }

  lemma ExecRepresents(t: Table, l: Table, op: Op, ttl: nat, before: int, horizon: int)
    requires Represents(t, l, before) && before <= horizon
    requires op.Acquire? ==> op.tx == horizon
    ensures Exec(t, op, ttl).1 == LeaseExec(l, op, ttl).1
    ensures Represents(Exec(t, op, ttl).0, LeaseExec(l, op, ttl).0, horizon)
  {
    if op.Acquire? {
      var reaped := Reap(t, op.tx);
      if Blocked(reaped, op.path, op.mode) {
        var id :| id in reaped.rows && reaped.rows[id].path == op.path && Excludes(reaped.rows[id].mode, op.mode);
        assert id in l.rows && Unexpired(l.rows[id], op.tx);
      }
      if id :| id in l.rows && Unexpired(l.rows[id], op.tx) && l.rows[id].path == op.path
               && Excludes(l.rows[id].mode, op.mode) {
        assert id in reaped.rows;
      }
    }
  }

  /**
   * With timestamps in order, lazy reaping is invisible: every transaction gets the answer
   * the never-reaped leases would give it, and the two agree on what is held from then on.
   */
  lemma {:induction false} ReapingIsInvisibleInOrder(ops: seq<Op>, ttl: nat, horizon: int)
    requires InOrder(ops)
    requires forall i | 0 <= i < |ops| && ops[i].Acquire? :: ops[i].tx <= horizon
    ensures ExecAll(ops, ttl).1 == LeaseExecAll(ops, ttl).1
    ensures View(ExecAll(ops, ttl).0, horizon) == View(LeaseExecAll(ops, ttl).0, horizon)
    ensures Represents(ExecAll(ops, ttl).0, LeaseExecAll(ops, ttl).0, horizon)
    decreases |ops|
  {
    if |ops| > 0 {
      var last := ops[|ops| - 1];
      var earlier := if last.Acquire? then last.tx else horizon;
      ReapingIsInvisibleInOrder(ops[..|ops| - 1], ttl, earlier);
      ExecRepresents(ExecAll(ops[..|ops| - 1], ttl).0, LeaseExecAll(ops[..|ops| - 1], ttl).0, last, ttl, earlier,
                     earlier);
    }
  }

  /**
   * Out of order it is not: a transaction whose timestamp lags behind that of an earlier
   * transaction is granted a lease that the never-reaped leases refuse.
   */
  lemma ReapingShowsOutOfOrder(ttl: nat, gen: Gen, other: Gen)
    requires ttl > 0 && gen != other
    ensures var ops := [Acquire(GenerationDir(gen), Shared, WorkerProc(0), 0),
                        Acquire(GenerationDir(other), Shared, WorkerProc(1), ttl),
                        Acquire(GenerationDir(gen), Exclusive, BuilderProc(0), ttl - 1)];
            ExecAll(ops, ttl).1[2] == Some(2) && LeaseExecAll(ops, ttl).1[2] == None
  {
    var a := Acquire(GenerationDir(gen), Shared, WorkerProc(0), 0);
    var b := Acquire(GenerationDir(other), Shared, WorkerProc(1), ttl);
    var c := Acquire(GenerationDir(gen), Exclusive, BuilderProc(0), ttl - 1);
    var ops := [a, b, c];
    assert ops[..|ops| - 1] == [a, b] && [a, b][..|[a, b]| - 1] == [a] && [a][..|[a]| - 1] == [];
    assert ExecAll([], ttl) == LeaseExecAll([], ttl) == (EMPTY, []);
    var rowA := Row(GenerationDir(gen), Shared, WorkerProc(0), 0, ttl);
    var rowB := Row(GenerationDir(other), Shared, WorkerProc(1), ttl, ttl + ttl);
    assert Reap(EMPTY, 0) == EMPTY;
    assert Exec(EMPTY, a, ttl) == (Table(map[0 := rowA], 1), Some(0));
    assert ExecAll([a], ttl).0 == Table(map[0 := rowA], 1);
    assert Reap(Table(map[0 := rowA], 1), ttl) == Table(map[], 1);
    assert ExecAll([a, b], ttl).0 == Table(map[1 := rowB], 2);
    assert Reap(Table(map[1 := rowB], 2), ttl - 1) == Table(map[1 := rowB], 2);
    assert LeaseExecAll([a], ttl).0 == Table(map[0 := rowA], 1);
    assert LeaseExecAll([a, b], ttl).0 == Table(map[0 := rowA, 1 := rowB], 2);
    assert LeaseExecAll([a, b], ttl).0.rows[0] == rowA;
  }

  /**
   * The leases a history has overtaken: while the lease existed, some later transaction carried a
   * timestamp at or past its expiry.
   */
  ghost function Overtaken(ops: seq<Op>, ttl: nat): set<nat> {
    if |ops| == 0 then {}
    else
      var earlier, last := ops[..|ops| - 1], ops[|ops| - 1];
      Overtaken(earlier, ttl) + (if last.Acquire? then Expired(LeaseExecAll(earlier, ttl).0, last.tx) else {})
  }

  ghost function Expired(l: Table, now: int): set<nat> {
    set id | id in l.rows && !Unexpired(l.rows[id], now)
  }

  /** The lease is unexpired at the time of the request and keeps it out. */
  ghost predicate KeepsOut(l: Table, id: nat, path: Path, mode: Mode, tx: int) {
    id in l.rows && Unexpired(l.rows[id], tx) && l.rows[id].path == path && Excludes(l.rows[id].mode, mode)
  }

  /** After this history a request is kept out by leases, but every one of them has been overtaken. */
  ghost predicate Shows(ops: seq<Op>, ttl: nat, op: Op) {
    && op.Acquire?
    && (exists id :: KeepsOut(LeaseExecAll(ops, ttl).0, id, op.path, op.mode, op.tx))
    && (forall id | KeepsOut(LeaseExecAll(ops, ttl).0, id, op.path, op.mode, op.tx) :: id in Overtaken(ops, ttl))
  }

  lemma {:induction false} OvertakenWereHandedOut(ops: seq<Op>, ttl: nat)
    ensures var next := LeaseExecAll(ops, ttl).0.nextId;
            && (forall id | id in LeaseExecAll(ops, ttl).0.rows :: id < next)
            && (forall id | id in Overtaken(ops, ttl) :: id < next)
  {
    if |ops| > 0 { OvertakenWereHandedOut(ops[..|ops| - 1], ttl); }
  }

  /** The leases without those that are gone from the table. */
  ghost function LeasesBut(l: Table, gone: set<nat>): Table {
    l.(rows := l.rows - gone)
  }

  /** One transaction on the table and on the leases, where the table lacks the leases that are gone. */
  lemma OneTransaction(l: Table, gone: set<nat>, op: Op, ttl: nat)
    requires forall id | id in l.rows || id in gone :: id < l.nextId
    ensures var t, gone' := LeasesBut(l, gone), gone + (if op.Acquire? then Expired(l, op.tx) else {});
            if op.Acquire? && (exists id :: KeepsOut(l, id, op.path, op.mode, op.tx))
               && (forall id | KeepsOut(l, id, op.path, op.mode, op.tx) :: id in gone)
            then Exec(t, op, ttl).1 != LeaseExec(l, op, ttl).1
            else Exec(t, op, ttl).1 == LeaseExec(l, op, ttl).1
                 && Exec(t, op, ttl).0 == LeasesBut(LeaseExec(l, op, ttl).0, gone')
  {
    var t := LeasesBut(l, gone);
    match op
    case Free(id) =>
      assert Exec(t, op, ttl).0.rows == LeasesBut(LeaseExec(l, op, ttl).0, gone).rows;
    case Acquire(path, mode, holder, tx) =>
      var reaped := Reap(t, tx);
      assert reaped.rows == l.rows - (gone + Expired(l, tx));
      assert Blocked(reaped, path, mode) <==> exists id :: KeepsOut(l, id, path, mode, tx) && id !in gone by {
        if id :| KeepsOut(l, id, path, mode, tx) && id !in gone { assert id in reaped.rows; }
        if id :| id in reaped.rows && reaped.rows[id].path == path && Excludes(reaped.rows[id].mode, mode) {
          assert KeepsOut(l, id, path, mode, tx);
        }
      }
      assert LeaseExec(l, op, ttl).1 == None <==> exists id :: KeepsOut(l, id, path, mode, tx) by {
        if id :| id in l.rows && Unexpired(l.rows[id], tx) && l.rows[id].path == path
                 && Excludes(l.rows[id].mode, mode) {
          assert KeepsOut(l, id, path, mode, tx);
        }
      }
      if !Blocked(reaped, path, mode) {
        var row := Row(path, mode, holder, tx, tx + ttl);
        assert reaped.rows[l.nextId := row] == l.rows[l.nextId := row] - (gone + Expired(l, tx));
      }
  }

  /**
   * Over all histories, whatever the timestamps: the reaped table answers as the never-reaped leases
   * do if and only if no request came that was kept out only by leases which the transactions before
   * it had overtaken. As long as none did, the table holds exactly the leases not overtaken.
   */
  lemma {:induction false} ReapingShowsExactlyWhen(ops: seq<Op>, ttl: nat)
    ensures ExecAll(ops, ttl).1 == LeaseExecAll(ops, ttl).1 <==>
            forall k | 0 <= k < |ops| :: !Shows(ops[..k], ttl, ops[k])
    ensures ExecAll(ops, ttl).1 == LeaseExecAll(ops, ttl).1 ==>
              ExecAll(ops, ttl).0 == LeasesBut(LeaseExecAll(ops, ttl).0, Overtaken(ops, ttl))
  {
    if |ops| > 0 {
      var earlier, last := ops[..|ops| - 1], ops[|ops| - 1];
      ReapingShowsExactlyWhen(earlier, ttl);
      OvertakenWereHandedOut(earlier, ttl);
      OneTransaction(LeaseExecAll(earlier, ttl).0, Overtaken(earlier, ttl), last, ttl);
      assert ExecAll(ops, ttl).1[..|earlier|] == ExecAll(earlier, ttl).1;
      assert LeaseExecAll(ops, ttl).1[..|earlier|] == LeaseExecAll(earlier, ttl).1;
      assert forall k | 0 <= k < |earlier| :: earlier[..k] == ops[..k] && earlier[k] == ops[k];
    }
  }

  /**
   * In or out of order, one transaction removes no lease that is unexpired at its own
   * timestamp or later, grants exactly when none of those conflicts, and changes nothing else.
   */
  lemma TryAcquireOnLiveLeases(t: Table, path: Path, mode: Mode, holder: Holder, tx: int, ttl: nat, now: int)
    requires TableOk(t) && tx <= now
    ensures var (t', id) := AfterAcquire(t, path, mode, holder, tx, ttl);
            && (id == None <==>
                exists i | i in View(t, tx) :: View(t, tx)[i].path == path && Excludes(View(t, tx)[i].mode, mode))
            && (id == None ==> View(t', now) == View(t, now))
            && (id != None ==> && id.value !in t.rows
                               && View(t', now) - {id.value} == View(t, now)
                               && (now < tx + ttl ==>
                                     && id.value in View(t', now)
                                     && View(t', now)[id.value] == Row(path, mode, holder, tx, tx + ttl)))
  {
    assert Reap(t, tx).rows == View(t, tx);
  }

  /** Releasing a lease that was already reaped never removes another holder's row. */
  lemma {:induction false} ReleaseAfterReaping(ops: seq<Op>, later: seq<Op>, ttl: nat, id: nat)
    requires id < ExecAll(ops, ttl).0.nextId && id !in ExecAll(ops, ttl).0.rows
    ensures id < ExecAll(ops + later, ttl).0.nextId
    ensures id !in ExecAll(ops + later, ttl).0.rows
    ensures AfterRelease(ExecAll(ops + later, ttl).0, id) == ExecAll(ops + later, ttl).0
    decreases |later|
  {
    if |later| == 0 {
      assert ops + later == ops;
    } else {
      var init := later[..|later| - 1];
      ReleaseAfterReaping(ops, init, ttl, id);
      assert (ops + later)[..|ops + later| - 1] == ops + init;
      EveryTableIsOk(ops + init, ttl);
    }
    var t := ExecAll(ops + later, ttl).0;
    assert t.rows - {id} == t.rows;
  }

  /** The query finds a row exactly if some row keeps the request out. */
  lemma ConflictsBlock(t: Table, path: Path, mode: Mode, conflicts: set<nat>)
    requires conflicts == set i | i in t.rows && t.rows[i].path == path
                                  && (mode == Shared ==> t.rows[i].mode == Exclusive)
    ensures conflicts != {} <==> Blocked(t, path, mode)
  {
    if conflicts != {} {
      var i :| i in conflicts;
      assert i in t.rows && t.rows[i].path == path && Excludes(t.rows[i].mode, mode);
    }
    if i :| i in t.rows && t.rows[i].path == path && Excludes(t.rows[i].mode, mode) {
      assert i in conflicts;
    }
  }

  /** The table as the database holds it, changed in place by one transaction at a time. */
  class GraphLockTable {
    var rows: map<nat, Row>
    var nextId: nat

    constructor ()
      ensures Contents() == EMPTY
    {
      rows := map[];
      nextId := 0;
    }

    function Contents(): Table
      reads this
    {
      Table(rows, nextId)
    }

    /** `_try_acquire`: reap, look for a conflicting row, insert. */
    method TryAcquire(path: Path, mode: Mode, holder: Holder, tx: int, ttl: nat) returns (id: Option<nat>)
      modifies this
      ensures (Contents(), id) == AfterAcquire(old(Contents()), path, mode, holder, tx, ttl)
    {
      rows := map i | i in rows && !(rows[i].expires <= tx) :: rows[i];
      var conflicts := set i | i in rows && rows[i].path == path;
      if mode == Shared {
        conflicts := set i | i in conflicts && rows[i].mode == Exclusive;
      }
      assert rows == Reap(old(Contents()), tx).rows;
      ConflictsBlock(Contents(), path, mode, conflicts);
      hide Blocked;
      if conflicts != {} {
        return None;
      }
      id := Some(nextId);
      rows := rows[nextId := Row(path, mode, holder, tx, tx + ttl)];
      nextId := nextId + 1;
    }

    /** `_release`: delete by id, which is no error when the row is gone already. */
    method Release(id: nat)
      modifies this
      ensures Contents() == AfterRelease(old(Contents()), id)
    {
      rows := rows - {id};
    }
  }
}
