/**
 * The program text of the builder and of the workers' lock, run against shared state that every
 * other process may change between any two of its accesses. Every access is recorded as an
 * action of the transition system, so that what is proved of runs holds of the program.
 */
module GraphDeployment {
  import opened Common
  import opened GraphLocks
  import opened LeaseProtocol
  import opened LeaseOwnership
  import opened GenerationSafety
  import opened Interference
  import opened BuildStatusFile

  const LOCK_POLL_INTERVAL := 5.0
  const SHARED_LOCK_TIMEOUT := 300.0

  /** Who asks for which lease: `run_build`, `prune_generations` or `lock_generation_shared`. */
  datatype Request = ForBuild(b: nat, p: Provider) | ForPrune(b: nat) | ForRead(w: nat)

  function Asker(q: Request): Holder {
    if q.ForRead? then WorkerProc(q.w) else BuilderProc(q.b)
  }

  /** Where the asker has to be in its program to ask. */
  predicate MayAsk(q: Request, place: Place) {
    match q
    case ForBuild(_, _) => place == BuilderAt(None)
    case ForPrune(_) =>
      place.BuilderAt? && place.builder.Some? && place.builder.value.phase.Prune?
        && place.builder.value.phase.job.todo != []
    case ForRead(_) => place.WorkerAt? && place.worker.Some? && place.worker.value.spot.Lock?
  }

  function LeaseWanted(q: Request, place: Place): (Path, Mode)
    requires MayAsk(q, place)
  {
    match q
    case ForBuild(_, p) => (ProviderDir(p), Exclusive)
    case ForPrune(_) => (GenerationDir(place.builder.value.phase.job.todo[0]), Exclusive)
    case ForRead(_) => (GenerationDir(place.worker.value.spot.gen), Shared)
  }

  /** Where the asker is once it has the lease. */
  function GrantedPlace(q: Request, place: Place, lease: Lease): Place
    requires MayAsk(q, place)
  {
    match q
    case ForBuild(_, p) => BuilderAt(Some(Builder(p, lease, Look)))
    case ForPrune(_) =>
      var me := place.builder.value;
      BuilderAt(Some(me.(phase := Remove(me.phase.job, lease))))
    case ForRead(_) =>
      var me := place.worker.value;
      WorkerAt(Some(me.(spot := Check(me.spot.gen, lease))))
  }

  /** Where the asker is after it was refused: as before, or giving up if that was the last attempt. */
  function RefusedPlace(q: Request, place: Place, last: bool): Place
    requires MayAsk(q, place)
  {
    if !last || q.ForBuild? then place
    else if q.ForPrune? then BuilderAt(Some(place.builder.value.(phase := Leave)))
    else WorkerAt(Some(place.worker.value.(spot := Resolve)))
  }

  function Attempt(q: Request, tx: int, last: bool): Action {
    match q
    case ForBuild(b, p) => BStart(b, p, tx)
    case ForPrune(b) => BTry(b, tx, last)
    case ForRead(w) => WTry(w, tx, last)
  }

  /** The provider a builder works for. */
  function ProviderAt(place: Place): Option<Provider> {
    if place.BuilderAt? && place.builder.Some? then Some(place.builder.value.provider) else None
  }

  function PutBuilder(m: map<nat, Builder>, me: Holder, place: Place): map<nat, Builder> {
    if me.WorkerProc? || place.WorkerAt? then m
    else match place.builder
      case Some(at) => m[me.b := at]
      case None => Without(m, me.b)
  }

  function PutWorker(m: map<nat, Worker>, me: Holder, place: Place): map<nat, Worker> {
    if me.BuilderProc? || place.BuilderAt? then m
    else match place.worker
      case Some(at) => m[me.w := at]
      case None => Without(m, me.w)
  }

  /** Where an attempt leaves its asker, given the answer of the table. */
  function AfterAttempt(q: Request, place: Place, tx: int, last: bool, id: Option<nat>): Place
    requires MayAsk(q, place)
  {
    match id
    case Some(id) => GrantedPlace(q, place, Lease(id, tx))
    case None => RefusedPlace(q, place, last)
  }

  /** The state after an attempt with this answer of the table. */
  function Attempted(s: State, q: Request, tx: int, last: bool, table: Table, id: Option<nat>): State
    requires MayAsk(q, PlaceOf(s, Asker(q)))
  {
    var next := AfterAttempt(q, PlaceOf(s, Asker(q)), tx, last, id);
    s.(table := table,
       builders := PutBuilder(s.builders, Asker(q), next), workers := PutWorker(s.workers, Asker(q), next))
  }

  /** An attempt is one action, which commits one transaction and moves its asker. */
  lemma AttemptIsAnAction(s: State, q: Request, tx: int, last: bool)
    requires MayAsk(q, PlaceOf(s, Asker(q))) && tx <= s.now
    ensures var (path, mode) := LeaseWanted(q, PlaceOf(s, Asker(q)));
            var (table, id) := AfterAcquire(s.table, path, mode, Asker(q), tx, s.cfg.ttl);
            StepOk(s, Attempt(q, tx, last), Attempted(s, q, tx, last, table, id))
  {
  }

  lemma AttemptMovesAsker(s: State, q: Request, tx: int, last: bool, table: Table, id: Option<nat>)
    requires MayAsk(q, PlaceOf(s, Asker(q)))
    ensures PlaceOf(Attempted(s, q, tx, last, table, id), Asker(q))
              == AfterAttempt(q, PlaceOf(s, Asker(q)), tx, last, id)
  {
  }

  lemma OwnRowsAfterAcquire(t: Table, path: Path, mode: Mode, me: Holder, tx: int, ttl: nat)
    ensures var (t', id) := AfterAcquire(t, path, mode, me, tx, ttl);
            && OwnRows(t', me) <= OwnRows(t, me) + (if id.Some? then {id.value} else {})
            && (id.Some? ==> id.value == t.nextId) && t.nextId <= t'.nextId
  {
  }

  /** The timestamp of the transaction that an attempt at a lease commits. */
  function TimeOf(a: Action): Option<int> {
    match a
    case BStart(_, _, tx) => Some(tx)
    case BTry(_, tx, _) => Some(tx)
    case WTry(_, tx, _) => Some(tx)
    case _ => None
  }

  /** Action `k` of the run was an attempt of this process at this lease. */
  ghost predicate Asks(r: Run, k: nat, me: Holder, path: Path, mode: Mode) {
    && k < |r.acts| && k < |r.states| && By(r.acts[k]) == Some(me)
    && Enabled(r.states[k], r.acts[k]) && TimeOf(r.acts[k]).Some?
    && Asked(r.states[k], r.acts[k]) == Some((path, mode, me, TimeOf(r.acts[k]).value))
  }

  /** And no unexpired row kept it out. */
  ghost predicate LetIn(r: Run, k: nat, me: Holder, path: Path, mode: Mode) {
    Asks(r, k, me, path, mode) && !Blocked(Reap(r.states[k].table, TimeOf(r.acts[k]).value), path, mode)
  }

  /** And an unexpired row kept it out. */
  ghost predicate Refused(r: Run, k: nat, me: Holder, path: Path, mode: Mode) {
    Asks(r, k, me, path, mode) && Blocked(Reap(r.states[k].table, TimeOf(r.acts[k]).value), path, mode)
  }

  lemma StaysRefused(r: Run, r': Run, k: nat, me: Holder, path: Path, mode: Mode)
    requires Refused(r, k, me, path, mode) && Extends(r, r')
    ensures Refused(r', k, me, path, mode)
  {
    hide Blocked, Reap;
    StatesAreKept(r, r', k);
  }

  /** From `from` on the process did nothing but ask for this lease, in vain, the last time just before `until`. */
  ghost predicate KeptOut(r: Run, from: nat, until: nat, me: Holder, path: Path, mode: Mode) {
    && from < until <= |r.acts| && Refused(r, until - 1, me, path, mode)
    && OnlyRefused(r, from, until, me, path, mode)
  }

  ghost predicate OnlyRefused(r: Run, from: nat, until: nat, me: Holder, path: Path, mode: Mode) {
    forall k | from <= k < until && k < |r.acts| && By(r.acts[k]) == Some(me) :: Refused(r, k, me, path, mode)
  }

  lemma StaysKeptOut(r: Run, r': Run, from: nat, until: nat, me: Holder, path: Path, mode: Mode)
    requires KeptOut(r, from, until, me, path, mode) && Extends(r, r')
    ensures KeptOut(r', from, until, me, path, mode)
  {
    hide Refused;
    StaysRefused(r, r', until - 1, me, path, mode);
    forall k | from <= k < until && By(r'.acts[k]) == Some(me) ensures Refused(r', k, me, path, mode) {
      assert r'.acts[k] == r.acts[k];
      StaysRefused(r, r', k, me, path, mode);
    }
  }

  lemma NoneRefused(r: Run, me: Holder, path: Path, mode: Mode)
    ensures OnlyRefused(r, |r.acts|, |r.acts|, me, path, mode)
  {
  }

  lemma OnlyRefusedStays(r: Run, r': Run, from: nat, me: Holder, path: Path, mode: Mode)
    requires OnlyRefused(r, from, |r.acts|, me, path, mode) && Extends(r, r')
    ensures OnlyRefused(r', from, |r.acts|, me, path, mode)
  {
    hide Refused;
    forall k | from <= k < |r.acts| && By(r'.acts[k]) == Some(me) ensures Refused(r', k, me, path, mode) {
      assert r'.acts[k] == r.acts[k];
      StaysRefused(r, r', k, me, path, mode);
    }
  }

  lemma OthersBetweenRefusals(r: Run, r': Run, from: nat, me: Holder, path: Path, mode: Mode)
    requires OnlyRefused(r, from, |r.acts|, me, path, mode) && Extends(r, r') && OnlyOthers(r', |r.acts|, me)
    ensures OnlyRefused(r', from, |r'.acts|, me, path, mode)
  {
    hide Refused;
    forall k | from <= k < |r'.acts| && By(r'.acts[k]) == Some(me) ensures Refused(r', k, me, path, mode) {
      assert k < |r.acts| && r'.acts[k] == r.acts[k];
      StaysRefused(r, r', k, me, path, mode);
    }
  }

  lemma OneMoreRefusal(r: Run, r': Run, from: nat, me: Holder, path: Path, mode: Mode)
    requires OnlyRefused(r, from, |r.acts|, me, path, mode) && Extends(r, r') && |r'.acts| == |r.acts| + 1
    requires Refused(r', |r.acts|, me, path, mode) && from <= |r.acts|
    ensures OnlyRefused(r', from, |r'.acts|, me, path, mode) && KeptOut(r', from, |r'.acts|, me, path, mode)
  {
    hide Refused;
    forall k | from <= k < |r'.acts| && By(r'.acts[k]) == Some(me) ensures Refused(r', k, me, path, mode) {
      if k < |r.acts| {
        assert r'.acts[k] == r.acts[k];
        StaysRefused(r, r', k, me, path, mode);
      }
    }
  }

  lemma RefusedNow(s: State, r: Run, k: nat, q: Request, tx: int, last: bool)
    requires MayAsk(q, PlaceOf(s, Asker(q))) && tx <= s.now && k < |r.acts| && k < |r.states|
    requires r.states[k] == s && r.acts[k] == Attempt(q, tx, last)
    ensures var (path, mode) := LeaseWanted(q, PlaceOf(s, Asker(q)));
            if AfterAcquire(s.table, path, mode, Asker(q), tx, s.cfg.ttl).1 == None
            then Refused(r, k, Asker(q), path, mode) else LetIn(r, k, Asker(q), path, mode)
  {
    hide Blocked, Reap;
  }

  /** How long one attempt at a lease may sleep. */
  function Patience(timeout: real): real {
    if timeout <= 0.0 then 0.0 else timeout
  }

  /** How long so many of them may sleep. */
  function PatienceFor(count: nat, timeout: real): real {
    if count == 0 then 0.0 else PatienceFor(count - 1, timeout) + Patience(timeout)
  }

  lemma NoPatience(timeout: real)
    ensures Patience(0.0) == 0.0 <= Patience(timeout) && PatienceFor(0, timeout) == 0.0
  {
  }

  lemma {:induction false} MorePatience(count: nat, more: nat, timeout: real)
    requires count <= more
    ensures PatienceFor(count, timeout) <= PatienceFor(more, timeout)
    decreases more
  {
    if count < more { MorePatience(count, more - 1, timeout); }
  }

  lemma OneMorePatience(count: nat, more: nat, timeout: real)
    requires count < more
    ensures PatienceFor(count, timeout) + Patience(timeout) == PatienceFor(count + 1, timeout)
    ensures PatienceFor(count + 1, timeout) <= PatienceFor(more, timeout)
  {
    MorePatience(count + 1, more, timeout);
  }

  /** One `time.sleep`: after how many actions of the run it began, and how long it was asked to be. */
  datatype Nap = Nap(at: nat, duration: real)

  function Slept(naps: seq<Nap>): real {
    if |naps| == 0 then 0.0 else Slept(naps[..|naps| - 1]) + naps[|naps| - 1].duration
  }

  /** The process slept right after an attempt of its own, made since `from`, and for one poll interval at most. */
  ghost predicate NapOk(r: Run, from: nat, nap: Nap, me: Holder) {
    && from < nap.at <= |r.acts| && By(r.acts[nap.at - 1]) == Some(me) && TimeOf(r.acts[nap.at - 1]).Some?
    && 0.0 < nap.duration <= LOCK_POLL_INTERVAL
  }

  /** Since `from`, when the naps were those in `was`, it has slept after its own attempts only, once after each. */
  ghost predicate Polls(r: Run, from: nat, was: seq<Nap>, naps: seq<Nap>, me: Holder) {
    && was <= naps
    && (forall i | |was| <= i < |naps| :: NapOk(r, from, naps[i], me))
    && (forall i, j | |was| <= i < j < |naps| :: naps[i].at < naps[j].at)
  }

  lemma NoNaps(r: Run, from: nat, naps: seq<Nap>, me: Holder)
    ensures Polls(r, from, naps, naps, me)
  {
  }

  lemma OneMoreNap(r: Run, from: nat, was: seq<Nap>, naps: seq<Nap>, me: Holder, duration: real)
    requires Polls(r, from, was, naps, me) && forall i | |was| <= i < |naps| :: naps[i].at < |r.acts|
    requires NapOk(r, from, Nap(|r.acts|, duration), me)
    ensures Polls(r, from, was, naps + [Nap(|r.acts|, duration)], me)
  {
    hide NapOk;
  }

  /** Refused once more, the process may sleep. */
  lemma NapAfterRefusal(r1: Run, r: Run, from: nat, was: seq<Nap>, naps: seq<Nap>, me: Holder, path: Path, mode: Mode,
                        duration: real)
    requires Polls(r1, from, was, naps, me) && Extends(r1, r) && |r1.acts| < |r.acts|
    requires KeptOut(r, from, |r.acts|, me, path, mode) && 0.0 < duration <= LOCK_POLL_INTERVAL
    ensures Polls(r, from, was, naps + [Nap(|r.acts|, duration)], me)
    ensures Slept(naps + [Nap(|r.acts|, duration)]) == Slept(naps) + duration
  {
    PollsStay(r1, r, from, was, naps, me);
    forall i | |was| <= i < |naps| ensures naps[i].at < |r.acts| { assert NapOk(r1, from, naps[i], me); }
    OneMoreNap(r, from, was, naps, me, duration);
    SleptLonger(naps, Nap(|r.acts|, duration));
  }

  lemma SleptLonger(naps: seq<Nap>, nap: Nap)
    ensures Slept(naps + [nap]) == Slept(naps) + nap.duration
  {
    assert (naps + [nap])[..|naps|] == naps;
  }

  lemma PollsStay(r: Run, r': Run, from: nat, was: seq<Nap>, naps: seq<Nap>, me: Holder)
    requires Polls(r, from, was, naps, me) && Extends(r, r')
    ensures Polls(r', from, was, naps, me)
  {
    forall i | |was| <= i < |naps| ensures NapOk(r', from, naps[i], me) {
      assert NapOk(r, from, naps[i], me) && r'.acts[naps[i].at - 1] == r.acts[naps[i].at - 1];
    }
  }

  /** First up to the end of `r1`, and then from `later` on. */
  lemma PollsBoth(r1: Run, r: Run, from: nat, later: nat, a: seq<Nap>, b: seq<Nap>, c: seq<Nap>, me: Holder)
    requires Polls(r1, from, a, b, me) && Polls(r, later, b, c, me)
    requires Extends(r1, r) && from <= later && |r1.acts| <= later
    ensures Polls(r, from, a, c, me)
  {
    PollsStay(r1, r, from, a, b, me);
    forall i | |a| <= i < |b| ensures c[i] == b[i] && b[i].at <= |r1.acts| {
      assert NapOk(r1, from, b[i], me);
    }
    forall i | |a| <= i < |c| ensures NapOk(r, from, c[i], me) && (i >= |b| ==> c[i].at > later) {
      if i < |b| { assert NapOk(r, from, b[i], me); } else { assert NapOk(r, later, c[i], me); }
    }
  }

  lemma PollsFromEarlier(r: Run, from: nat, later: nat, was: seq<Nap>, naps: seq<Nap>, me: Holder)
    requires Polls(r, later, was, naps, me) && from <= later
    ensures Polls(r, from, was, naps, me)
  {
    forall i | |was| <= i < |naps| ensures NapOk(r, from, naps[i], me) { assert NapOk(r, later, naps[i], me); }
  }

  /** So many naps add up to so much. */
  lemma {:induction false} NapsAreShort(r: Run, from: nat, was: seq<Nap>, naps: seq<Nap>, me: Holder)
    requires Polls(r, from, was, naps, me)
    ensures Slept(was) <= Slept(naps) <= Slept(was) + LOCK_POLL_INTERVAL * (|naps| - |was|) as real
    decreases |naps|
  {
    if |naps| == |was| {
      assert naps == was;
    } else {
      var last := |naps| - 1;
      assert NapOk(r, from, naps[last], me);
      forall i | |was| <= i < last ensures NapOk(r, from, naps[..last][i], me) { assert NapOk(r, from, naps[i], me); }
      NapsAreShort(r, from, was, naps[..last], me);
    }
  }

  /** How many of the actions are by this process. */
  function OwnActions(acts: seq<Action>, me: Holder): nat {
    if |acts| == 0 then 0
    else OwnActions(acts[..|acts| - 1], me) + (if By(acts[|acts| - 1]) == Some(me) then 1 else 0)
  }

  lemma NoActions(r: Run, me: Holder)
    ensures OwnActions(r.acts[|r.acts|..], me) == 0
  {
  }

  lemma {:induction false} NoneOfThem(acts: seq<Action>, me: Holder)
    requires OwnActions(acts, me) == 0
    ensures forall k | 0 <= k < |acts| :: By(acts[k]) != Some(me)
  {
    if |acts| > 0 { NoneOfThem(acts[..|acts| - 1], me); }
  }

  /** The only action of the process is the last one of the run. */
  lemma OnlyTheLast(r: Run, from: nat, me: Holder)
    requires from < |r.acts| && OwnActions(r.acts[from..], me) == 1 && By(r.acts[|r.acts| - 1]) == Some(me)
    ensures forall k | from <= k < |r.acts| - 1 :: By(r.acts[k]) != Some(me)
  {
    var acts := r.acts[from..];
    NoneOfThem(acts[..|acts| - 1], me);
    forall k | from <= k < |r.acts| - 1 ensures By(r.acts[k]) != Some(me) {
      assert acts[..|acts| - 1][k - from] == r.acts[k];
    }
  }

  lemma OneMoreAction(r: Run, r': Run, from: nat, me: Holder)
    requires Extends(r, r') && |r'.acts| == |r.acts| + 1 && from <= |r.acts| && By(r'.acts[|r.acts|]) == Some(me)
    ensures OwnActions(r'.acts[from..], me) == OwnActions(r.acts[from..], me) + 1
  {
    assert r'.acts[from..][..|r.acts| - from] == r.acts[from..];
  }

  lemma {:induction false} NoMoreActions(r: Run, r': Run, from: nat, me: Holder)
    requires Extends(r, r') && from <= |r.acts| && OnlyOthers(r', |r.acts|, me)
    ensures OwnActions(r'.acts[from..], me) == OwnActions(r.acts[from..], me)
    decreases |r'.acts|
  {
    if |r'.acts| == |r.acts| {
      assert r'.acts == r.acts;
    } else {
      var last := |r'.acts| - 1;
      var r1 := Run(r'.states, r'.acts[..last]);
      assert r1.acts[..|r.acts|] == r.acts;
      NoMoreActions(r, r1, from, me);
      assert r'.acts[from..][..last - from] == r1.acts[from..];
    }
  }

  // ----- The steps of `lock_generation_shared` -----

  /** Why an attempt at the shared lease failed, with the states of the run that show it. */
  datatype Cause =
    | Unresolved(at: nat)
    | TimedOut(seen: nat, until: nat, gen: Gen, waited: real)
    | Replaced(seen: nat, checked: nat)

  /** The time that passed while the attempt waited for a lease it did not get. */
  function WaitedFor(c: Cause): real {
    if c.TimedOut? then c.waited else 0.0
  }

  /** All through the timeout the worker was refused the generation, each time it asked. */
  ghost predicate WaitedInVain(r: Run, w: nat, timeout: real, c: Cause) {
    && c.TimedOut? && c.waited >= timeout
    && KeptOut(r, c.seen + 1, c.until, WorkerProc(w), GenerationDir(c.gen), Shared)
  }

  ghost predicate CauseOk(r: Run, w: nat, p: Provider, from: nat, timeout: real, c: Cause) {
    match c
    case Unresolved(at) => from <= at < |r.states| && Resolved(r.states[at].files, p) == None
    case TimedOut(seen, _, gen, _) =>
      && from <= seen < |r.states| && Resolved(r.states[seen].files, p) == Some(gen)
      && WaitedInVain(r, w, timeout, c)
    case Replaced(seen, checked) =>
      && from <= seen <= checked < |r.states|
      && Resolved(r.states[seen].files, p).Some?
      && Resolved(r.states[checked].files, p) != Resolved(r.states[seen].files, p)
  }

  /** The causes of the failed attempts, the later ones seen after the earlier ones. */
  ghost predicate CausesOk(r: Run, w: nat, p: Provider, from: nat, timeout: real, cs: seq<Cause>) {
    && (forall i | 0 <= i < |cs| :: CauseOk(r, w, p, from, timeout, cs[i]))
    && forall i, j | 0 <= i < j < |cs| && cs[i].Replaced? && cs[j].Replaced? :: cs[i].checked <= cs[j].seen
  }

  lemma CausesStayOk(r: Run, r': Run, w: nat, p: Provider, from: nat, timeout: real, cs: seq<Cause>)
    requires CausesOk(r, w, p, from, timeout, cs) && Extends(r, r')
    ensures CausesOk(r', w, p, from, timeout, cs)
  {
    hide KeptOut;
    forall i | 0 <= i < |cs| ensures CauseOk(r', w, p, from, timeout, cs[i]) {
      assert CauseOk(r, w, p, from, timeout, cs[i]);
      if cs[i].TimedOut? {
        StaysKeptOut(r, r', cs[i].seen + 1, cs[i].until, WorkerProc(w), GenerationDir(cs[i].gen), Shared);
      }
    }
  }

  /** One more attempt failed, in the part of the run that came after the earlier ones. */
  lemma CauseAdded(r: Run, r': Run, w: nat, p: Provider, from: nat, timeout: real, cs: seq<Cause>, c: Cause)
    requires CausesOk(r, w, p, from, timeout, cs) && Extends(r, r') && |r.states| == |r.acts| + 1 && from <= |r.acts|
    requires CauseOk(r', w, p, |r.acts|, timeout, c)
    ensures CausesOk(r', w, p, from, timeout, cs + [c])
  {
    hide KeptOut;
    CausesStayOk(r, r', w, p, from, timeout, cs);
    forall i | 0 <= i < |cs| && cs[i].Replaced? ensures cs[i].checked <= |r.acts| {
      assert CauseOk(r, w, p, from, timeout, cs[i]);
    }
  }

  /** How long the failed attempts waited for leases altogether. */
  function TimeWaited(cs: seq<Cause>): real {
    if |cs| == 0 then 0.0 else TimeWaited(cs[..|cs| - 1]) + WaitedFor(cs[|cs| - 1])
  }

  lemma OneMoreWait(cs: seq<Cause>, c: Cause)
    ensures TimeWaited(cs + [c]) == TimeWaited(cs) + WaitedFor(c)
  {
    assert (cs + [c])[..|cs|] == cs;
  }

  /** How often the target of the link changed between two states of a run. */
  ghost function Moves(r: Run, p: Provider, from: nat, until: nat): nat
    requires from <= until < |r.states|
    decreases until - from
  {
    if from == until then 0
    else Moves(r, p, from, until - 1)
         + (if Resolved(r.states[until - 1].files, p) != Resolved(r.states[until].files, p) then 1 else 0)
  }

  lemma {:induction false} MovesAddUp(r: Run, p: Provider, from: nat, mid: nat, until: nat)
    requires from <= mid <= until < |r.states|
    ensures Moves(r, p, from, until) == Moves(r, p, from, mid) + Moves(r, p, mid, until)
    decreases until - mid
  {
    if mid < until { MovesAddUp(r, p, from, mid, until - 1); }
  }

  lemma {:induction false} DifferentMeansMoved(r: Run, p: Provider, from: nat, until: nat)
    requires from <= until < |r.states|
    requires Resolved(r.states[from].files, p) != Resolved(r.states[until].files, p)
    ensures Moves(r, p, from, until) >= 1
    decreases until - from
  {
    if from < until && Resolved(r.states[until - 1].files, p) == Resolved(r.states[until].files, p) {
      DifferentMeansMoved(r, p, from, until - 1);
    }
  }

  /**
   * Why `lock_generation_shared` may raise: all through a timeout a lease was refused, or the link
   * could not be resolved at some moment, or it moved at least twice.
   */
  ghost predicate MayRaise(r: Run, w: nat, p: Provider, from: nat, timeout: real, cs: seq<Cause>)
    requires |cs| == RESOLVE_ATTEMPTS && from < |r.states|
  {
    || WaitedInVain(r, w, timeout, cs[0]) || WaitedInVain(r, w, timeout, cs[1])
    || (exists at | from <= at < |r.states| :: Resolved(r.states[at].files, p) == None)
    || Moves(r, p, from, |r.states| - 1) >= 2
  }

  /** If both attempts failed, then for one of these reasons. */
  lemma BothAttemptsFailed(r: Run, w: nat, p: Provider, from: nat, timeout: real, cs: seq<Cause>)
    requires CausesOk(r, w, p, from, timeout, cs) && |cs| == RESOLVE_ATTEMPTS && from < |r.states|
    ensures MayRaise(r, w, p, from, timeout, cs)
  {
    hide Moves, Resolved, WaitedInVain;
    assert CauseOk(r, w, p, from, timeout, cs[0]) && CauseOk(r, w, p, from, timeout, cs[1]);
    if cs[0].Replaced? && cs[1].Replaced? {
      var last := |r.states| - 1;
      DifferentMeansMoved(r, p, cs[0].seen, cs[0].checked);
      DifferentMeansMoved(r, p, cs[1].seen, cs[1].checked);
      MovesAddUp(r, p, from, cs[0].seen, last);
      MovesAddUp(r, p, cs[0].seen, cs[0].checked, last);
      MovesAddUp(r, p, cs[0].checked, cs[1].seen, last);
      MovesAddUp(r, p, cs[1].seen, cs[1].checked, last);
    }
  }

  /** The states in which the link named the generation before its lease was granted, and again after. */
  ghost predicate NamedBeforeAndAfter(r: Run, from: nat, w: nat, p: Provider, g: Gen, seen: nat, granted: nat,
                                      checked: nat) {
    && from <= seen <= granted < checked < |r.states| && granted < |r.acts|
    && Resolved(r.states[seen].files, p) == Some(g)
    && r.acts[granted].WTry? && By(r.acts[granted]) == Some(WorkerProc(w))
    && Resolved(r.states[checked].files, p) == Some(g)
  }

  /** The link named the generation, and it does so still, or not. */
  lemma NamedOrReplaced(r: Run, from: nat, w: nat, p: Provider, g: Gen, timeout: real, seen: nat, granted: nat,
                        checked: nat)
    requires from <= seen <= granted < checked < |r.states| && granted < |r.acts|
    requires Resolved(r.states[seen].files, p) == Some(g)
    requires r.acts[granted].WTry? && By(r.acts[granted]) == Some(WorkerProc(w))
    ensures if Resolved(r.states[checked].files, p) == Some(g)
            then NamedBeforeAndAfter(r, from, w, p, g, seen, granted, checked)
            else CauseOk(r, w, p, from, timeout, Replaced(seen, checked))
  {
    hide Resolved;
  }

  lemma UnresolvedOrTimedOut(r: Run, from: nat, w: nat, p: Provider, timeout: real, seen: nat, until: nat, waited: real)
    requires from <= seen < |r.states|
    ensures Resolved(r.states[seen].files, p) == None ==> CauseOk(r, w, p, from, timeout, Unresolved(seen))
    ensures Resolved(r.states[seen].files, p).Some? ==>
              var g := Resolved(r.states[seen].files, p).value;
              KeptOut(r, seen + 1, until, WorkerProc(w), GenerationDir(g), Shared) && waited >= timeout ==>
              CauseOk(r, w, p, from, timeout, TimedOut(seen, until, g, waited))
  {
    hide Resolved, KeptOut;
  }

  lemma NoCausesYet(r: Run, w: nat, p: Provider, from: nat, timeout: real)
    ensures CausesOk(r, w, p, from, timeout, []) && TimeWaited([]) == 0.0
  {
  }

  lemma NamedFromEarlier(r: Run, from: nat, later: nat, w: nat, p: Provider, g: Gen, seen: nat, granted: nat,
                         checked: nat)
    requires from <= later && NamedBeforeAndAfter(r, later, w, p, g, seen, granted, checked)
    ensures NamedBeforeAndAfter(r, from, w, p, g, seen, granted, checked)
  {
  }

  /** The state after a worker moved on, or left, and perhaps released a lease. */
  function WorkerMoved(s: State, w: nat, next: Option<Worker>, table: Table): State {
    s.(workers := PutWorker(s.workers, WorkerProc(w), WorkerAt(next)), table := table)
  }

  lemma WorkerMoves(s: State, w: nat, next: Option<Worker>, table: Table)
    ensures PlaceOf(WorkerMoved(s, w, next, table), WorkerProc(w)) == WorkerAt(next)
  {
  }

  lemma BeginIsAnAction(s: State, w: nat, p: Provider)
    requires w !in s.workers
    ensures StepOk(s, WStart(w, p), WorkerMoved(s, w, Some(Worker(p, RESOLVE_ATTEMPTS, Resolve)), s.table))
  {
  }

  lemma ResolveIsAnAction(s: State, w: nat)
    requires w in s.workers && s.workers[w].spot.Resolve? && s.workers[w].tries > 0
    ensures var me := s.workers[w];
            var target := Resolved(s.files, me.provider);
            var next := Worker(me.provider, me.tries - 1, if target.Some? then Lock(target.value) else Resolve);
            StepOk(s, WResolve(w), WorkerMoved(s, w, Some(next), s.table))
  {
  }

  lemma CheckIsAnAction(s: State, w: nat)
    requires w in s.workers && s.workers[w].spot.Check?
    ensures var me := s.workers[w];
            var g, lease := me.spot.gen, me.spot.lease;
            var isCurrent := Resolved(s.files, me.provider) == Some(g);
            var next := me.(spot := if isCurrent then Read(g, lease) else Drop(g, lease));
            StepOk(s, WCheck(w), WorkerMoved(s, w, Some(next), s.table))
  {
  }

  lemma DropIsAnAction(s: State, w: nat)
    requires w in s.workers && s.workers[w].spot.Drop?
    ensures var me := s.workers[w];
            StepOk(s, WDrop(w), WorkerMoved(s, w, Some(me.(spot := Resolve)), AfterRelease(s.table, me.spot.lease.id)))
  {
  }

  lemma DoneIsAnAction(s: State, w: nat)
    requires w in s.workers && s.workers[w].spot.Read?
    ensures StepOk(s, WDone(w), WorkerMoved(s, w, None, AfterRelease(s.table, s.workers[w].spot.lease.id)))
  {
  }

  lemma RaiseIsAnAction(s: State, w: nat)
    requires w in s.workers && s.workers[w].spot.Resolve? && s.workers[w].tries == 0
    ensures StepOk(s, WRaise(w), WorkerMoved(s, w, None, s.table))
  {
  }

  class Deployment {
    const cfg: Settings
    const locks: GraphLockTable

    // The clocks.
    var now: int
    var stamp: nat
    var monotonic: real

    // The volume.
    var links: map<Provider, Gen>
    var staged: map<Provider, Gen>
    var dirs: map<Gen, Dir>
    var published: map<Gen, Dir>

    // Where every process is in its program.
    var builders: map<nat, Builder>
    var workers: map<nat, Worker>

    // What the builders told the status file, and the update jobs they queued.
    var statusCalls: seq<Call>
    var enqueued: seq<Provider>

    // The run so far, and how much of it had happened when each update job was queued.
    ghost var run: Run
    ghost var queuedAt: seq<nat>

    // The sleeps of this process so far.
    ghost var naps: seq<Nap>

    function Volume(): Files
      reads this`links, this`staged, this`dirs, this`published
    {
      Files(links, staged, dirs, published)
    }

    function Abs(): State
      reads this`now, this`stamp, this`links, this`staged, this`dirs, this`published, this`builders, this`workers, locks
    {
      State(cfg, now, stamp, locks.Contents(), Volume(), builders, workers)
    }

    /** The shared state is the last state of a run of the transition system. */
    ghost predicate Valid()
      reads this`now, this`stamp, this`links, this`staged, this`dirs, this`published, this`builders, this`workers,
            this`run, locks
    {
      |run.states| == |run.acts| + 1 && IsRun(run) && run.states[|run.acts|] == Abs()
    }

    constructor (cfg: Settings, now: int, stamp: nat)
      requires cfg.keep >= 1
      ensures Valid() && run.acts == [] && this.cfg == cfg && fresh(locks)
      ensures statusCalls == [] && enqueued == []
    {
      this.cfg, this.now, this.stamp, this.monotonic := cfg, now, stamp, 0.0;
      links, staged, dirs, published := map[], map[], map[], map[];
      builders, workers, statusCalls, enqueued := map[], map[], [], [];
      locks := new GraphLockTable();
      queuedAt, naps := [], [];
      run := Run([State(cfg, now, stamp, EMPTY, EMPTY_FILES, map[], map[])], []);
    }

    /** Notes the action that has just been taken. */
    ghost method Record(a: Action)
      requires IsRun(run) && StepOk(run.states[|run.acts|], a, Abs())
      modifies this`run
      ensures Valid() && run == Append(old(run), a, Abs()) && Extends(old(run), run)
    {
      AppendIsRun(run, a, Abs());
      run := Append(run, a, Abs());
    }

    method Load(s: State)
      modifies this`now, this`stamp, this`links, this`staged, this`dirs, this`published, this`builders, this`workers,
               locks
      requires s.cfg == cfg
      ensures Abs() == s
    {
      now, stamp, builders, workers := s.now, s.stamp, s.builders, s.workers;
      links, staged, dirs, published := s.files.links, s.files.staged, s.files.dirs, s.files.published;
      locks.rows, locks.nextId := s.table.rows, s.table.nextId;
    }

    /** Any number of steps by other processes and by the clocks. */
    method Others(me: Holder)
      requires Valid()
      modifies this`now, this`stamp, this`monotonic, this`links, this`staged, this`dirs, this`published,
               this`builders, this`workers, this`run, locks
      ensures Valid() && OnlyOthers(run, |old(run).acts|, me)
      ensures Untouched(old(run), old(Volume()), run, Volume(), me, ProviderAt(old(PlaceOf(Abs(), me))))
      ensures PlaceOf(Abs(), me) == old(PlaceOf(Abs(), me))
      ensures OwnRows(locks.Contents(), me) <= old(OwnRows(locks.Contents(), me))
      ensures now >= old(now) && stamp >= old(stamp) && monotonic >= old(monotonic) && locks.nextId >= old(locks.nextId)
      ensures |run.acts| >= |old(run).acts|
    {
      hide IsRun, StepOk, Apply, Enabled, SameFor, OwnRows, Untouched, RunsInTime;
      var t: real := *;
      if monotonic < t {
        monotonic := t;
      }
      ghost var p := ProviderAt(PlaceOf(Abs(), me));
      UntouchedAtFirst(run, Volume(), me, p);
      var n: nat := *;
      while n > 0
        invariant Valid() && |old(run).acts| <= |run.acts| && OnlyOthers(run, |old(run).acts|, me)
        invariant Untouched(old(run), old(Volume()), run, Volume(), me, p)
        invariant PlaceOf(Abs(), me) == old(PlaceOf(Abs(), me))
        invariant OwnRows(locks.Contents(), me) <= old(OwnRows(locks.Contents(), me))
        invariant now >= old(now) && stamp >= old(stamp) && monotonic >= old(monotonic)
        invariant locks.nextId >= old(locks.nextId)
      {
        var a: Action := *;
        if By(a) != Some(me) && MayHappen(a) {
          ghost var r1, f1 := run, Volume();
          StepOfAnother(a, me);
          UntouchedByOthers(old(run), old(Volume()), r1, f1, run, Volume(), me, p);
        }
        n := n - 1;
      }
    }

    predicate MayHappen(a: Action)
      reads this, locks
    {
      Enabled(Abs(), a)
    }

    method StepOfAnother(a: Action, me: Holder)
      requires Valid() && By(a) != Some(me) && MayHappen(a)
      modifies this`now, this`stamp, this`links, this`staged, this`dirs, this`published,
               this`builders, this`workers, this`run, locks
      ensures Valid() && run == Append(old(run), a, Abs()) && Extends(old(run), run)
      ensures PlaceOf(Abs(), me) == old(PlaceOf(Abs(), me))
      ensures OwnRows(locks.Contents(), me) <= old(OwnRows(locks.Contents(), me))
      ensures now >= old(now) && stamp >= old(stamp) && locks.nextId >= old(locks.nextId)
      ensures var p := ProviderAt(old(PlaceOf(Abs(), me)));
              p.Some? && RunsInTime(run, p.value) ==> SameFor(old(Volume()), Volume(), p.value)
    {
      ghost var s := Abs();
      ghost var before := run;
      ApplyIsStep(s, a);
      StepByOther(s, a, me);
      hide IsRun, StepOk, Apply, Enabled, OwnRows, SameFor, RunsInTime, LeasesOk, InTime, KeepApart, By;
      Load(Apply(Abs(), a));
      Record(a);
      if me.BuilderProc? && me.b in builders && RunsInTime(run, builders[me.b].provider) {
        InTimeBefore(before, run, builders[me.b].provider);
        InOrderHere(before, s, builders[me.b].provider);
        StepByOtherOnFiles(s, a, me.b);
      }
    }

    static lemma ApplyIsStep(s: State, a: Action)
      requires Enabled(s, a)
      ensures StepOk(s, a, Apply(s, a)) && Apply(s, a).cfg == s.cfg
    {
    }

    static lemma InOrderHere(r: Run, s: State, p: Provider)
      requires IsRun(r) && RunsInTime(r, p) && s == r.states[|r.acts|]
      ensures LeasesOk(s) && KeepApart(s) && InTime(s, p)
    {
      EveryRunKeepsLeases(r, |r.acts|);
      EveryRunKeepsApart(r, |r.acts|);
    }

    // ----- lock_utils -----

    /** One transaction of `_try_acquire` with this timestamp, and what its answer makes of the asker. */
    method AttemptAt(q: Request, tx: int, gives: bool) returns (id: Option<nat>)
      requires Valid() && MayAsk(q, PlaceOf(Abs(), Asker(q))) && tx <= now
      modifies this`builders, this`workers, this`run, locks
      ensures Valid() && Extends(old(run), run) && run == Append(old(run), Attempt(q, tx, id.None? && gives), Abs())
      ensures Abs() == Attempted(old(Abs()), q, tx, id.None? && gives, locks.Contents(), id)
      ensures var (path, mode) := LeaseWanted(q, PlaceOf(old(Abs()), Asker(q)));
              (locks.Contents(), id) == AfterAcquire(old(Abs()).table, path, mode, Asker(q), tx, cfg.ttl)
    {
      hide IsRun, StepOk, Apply, Enabled, AfterAcquire, PutBuilder, PutWorker, PlaceOf, LeaseWanted, AfterAttempt,
           Attempt, MayAsk;
      ghost var s := Abs();
      var me, place := Asker(q), PlaceOf(Abs(), Asker(q));
      var (path, mode) := LeaseWanted(q, place);
      id := locks.TryAcquire(path, mode, me, tx, cfg.ttl);
      var last := id.None? && gives;
      var next := AfterAttempt(q, place, tx, last, id);
      builders, workers := PutBuilder(builders, me, next), PutWorker(workers, me, next);
      AttemptIsAnAction(s, q, tx, last);
      Record(Attempt(q, tx, last));
    }

    /** One transaction of `_try_acquire` with its timestamp, and the look at the clock that follows a refusal. */
    method TryOnce(q: Request, deadline: real, gives: bool) returns (lease: Option<Lease>, remaining: real)
      requires Valid() && MayAsk(q, PlaceOf(Abs(), Asker(q)))
      modifies this`builders, this`workers, this`run, locks
      ensures Valid() && Extends(old(run), run) && Volume() == old(Volume())
      ensures |run.acts| == |old(run).acts| + 1 && run.states[|old(run).acts|].files == run.states[|run.acts|].files
      ensures remaining == deadline - monotonic
      ensures lease.Some? ==> PlaceOf(Abs(), Asker(q)) == GrantedPlace(q, old(PlaceOf(Abs(), Asker(q))), lease.value)
      ensures lease.None? ==>
                PlaceOf(Abs(), Asker(q)) == RefusedPlace(q, old(PlaceOf(Abs(), Asker(q))), gives && remaining <= 0.0)
      ensures OwnRows(locks.Contents(), Asker(q))
              <= old(OwnRows(locks.Contents(), Asker(q))) + (if lease.Some? then {lease.value.id} else {})
      ensures lease.Some? ==>
                lease.value.id == old(locks.nextId) && run.acts[|old(run).acts|] == Attempt(q, lease.value.since, false)
      ensures var (path, mode) := LeaseWanted(q, old(PlaceOf(Abs(), Asker(q))));
              if lease.Some? then LetIn(run, |old(run).acts|, Asker(q), path, mode)
              else Refused(run, |old(run).acts|, Asker(q), path, mode)
      ensures locks.nextId >= old(locks.nextId) && By(run.acts[|old(run).acts|]) == Some(Asker(q))
    {
      hide IsRun, StepOk, Apply, Enabled, Refused, LetIn, AfterAcquire, OwnRows, RefusedPlace, GrantedPlace, PlaceOf,
           LeaseWanted, Attempted, MayAsk;
      ghost var s := Abs();
      var tx: int := *;
      if now < tx {
        tx := now;
      }
      remaining := deadline - monotonic;
      var id := AttemptAt(q, tx, gives && remaining <= 0.0);
      ghost var last := id.None? && gives && remaining <= 0.0;
      AttemptMovesAsker(s, q, tx, last, locks.Contents(), id);
      ghost var (path, mode) := LeaseWanted(q, PlaceOf(s, Asker(q)));
      OwnRowsAfterAcquire(s.table, path, mode, Asker(q), tx, cfg.ttl);
      RefusedNow(s, run, |run.acts| - 1, q, tx, last);
      lease := if id.Some? then Some(Lease(id.value, tx)) else None;
    }

    /** The next attempt of `_acquire`, which began in `r0`; the others go on before it. */
    method TryNext(q: Request, deadline: real, gives: bool, ghost r0: Run, ghost f0: Files, ghost p: Option<Provider>,
                   ghost path: Path, ghost mode: Mode)
      returns (lease: Option<Lease>, remaining: real)
      requires Valid() && MayAsk(q, PlaceOf(Abs(), Asker(q))) && p == ProviderAt(PlaceOf(Abs(), Asker(q)))
      requires (path, mode) == LeaseWanted(q, PlaceOf(Abs(), Asker(q)))
      requires Untouched(r0, f0, run, Volume(), Asker(q), p) && |r0.acts| <= |run.acts|
      requires OnlyRefused(run, |r0.acts|, |run.acts|, Asker(q), path, mode)
      modifies this`now, this`stamp, this`monotonic, this`links, this`staged, this`dirs, this`published,
               this`builders, this`workers, this`run, locks
      ensures Valid() && Untouched(r0, f0, run, Volume(), Asker(q), p)
      ensures Extends(old(run), run) && |run.acts| > |old(run).acts|
      ensures remaining == deadline - monotonic && monotonic >= old(monotonic) && locks.nextId >= old(locks.nextId)
      ensures lease.Some? ==> PlaceOf(Abs(), Asker(q)) == GrantedPlace(q, old(PlaceOf(Abs(), Asker(q))), lease.value)
      ensures lease.None? ==>
                PlaceOf(Abs(), Asker(q)) == RefusedPlace(q, old(PlaceOf(Abs(), Asker(q))), gives && remaining <= 0.0)
      ensures OwnRows(locks.Contents(), Asker(q))
              <= old(OwnRows(locks.Contents(), Asker(q))) + (if lease.Some? then {lease.value.id} else {})
      ensures lease.Some? ==> lease.value.id >= old(locks.nextId)
      ensures lease.Some? ==> run.acts[|run.acts| - 1] == Attempt(q, lease.value.since, false)
      ensures lease.Some? ==> && OnlyRefused(run, |r0.acts|, |run.acts| - 1, Asker(q), path, mode)
                              && LetIn(run, |run.acts| - 1, Asker(q), path, mode)
      ensures lease.None? ==> && OnlyRefused(run, |r0.acts|, |run.acts|, Asker(q), path, mode)
                              && KeptOut(run, |r0.acts|, |run.acts|, Asker(q), path, mode)
      ensures OwnActions(run.acts[|r0.acts|..], Asker(q)) == OwnActions(old(run).acts[|r0.acts|..], Asker(q)) + 1
    {
      hide IsRun, StepOk, Apply, Enabled, SameFor, OwnRows, Untouched, RunsInTime, OnlyOthers, Extends, Refused, LetIn,
           LeaseWanted, OwnActions, KeptOut, OnlyRefused, GrantedPlace, RefusedPlace, PlaceOf, MayAsk, Attempt, By;
      ghost var me, r1, f1 := Asker(q), run, Volume();
      Others(Asker(q));
      UntouchedTransitive(r0, f0, r1, f1, run, Volume(), me, p);
      UntouchedExtends(r1, f1, run, Volume(), me, p);
      NoMoreActions(r1, run, |r0.acts|, me);
      OthersBetweenRefusals(r1, run, |r0.acts|, me, path, mode);
      ghost var r2, f2 := run, Volume();
      lease, remaining := TryOnce(q, deadline, gives);
      ExtendsTransitive(r1, r2, run);
      UntouchedByOwnStep(r0, f0, r2, f2, run, me, p);
      OneMoreAction(r2, run, |r0.acts|, me);
      OnlyRefusedStays(r2, run, |r0.acts|, me, path, mode);
      if lease.None? { OneMoreRefusal(r2, run, |r0.acts|, me, path, mode); }
    }

    /** `time.sleep`: at least that long passes, and the others go on meanwhile. */
    method Sleep(duration: real, me: Holder)
      requires Valid() && duration >= 0.0
      modifies this`now, this`stamp, this`monotonic, this`naps, this`links, this`staged, this`dirs, this`published,
               this`builders, this`workers, this`run, locks
      ensures Valid() && OnlyOthers(run, |old(run).acts|, me)
      ensures Untouched(old(run), old(Volume()), run, Volume(), me, ProviderAt(old(PlaceOf(Abs(), me))))
      ensures PlaceOf(Abs(), me) == old(PlaceOf(Abs(), me))
      ensures OwnRows(locks.Contents(), me) <= old(OwnRows(locks.Contents(), me))
      ensures now >= old(now) && monotonic >= old(monotonic) + duration && locks.nextId >= old(locks.nextId)
      ensures |run.acts| >= |old(run).acts| && naps == old(naps) + [Nap(|old(run).acts|, duration)]
    {
      naps := naps + [Nap(|run.acts|, duration)];
      monotonic := monotonic + duration;
      Others(me);
    }

    /** `_acquire`: try, and keep retrying every five seconds until the timeout is up. */
    method Acquire(q: Request, timeout: real, gives: bool) returns (lease: Option<Lease>)
      requires Valid() && MayAsk(q, PlaceOf(Abs(), Asker(q)))
      modifies this`now, this`stamp, this`monotonic, this`naps, this`links, this`staged, this`dirs, this`published,
               this`builders, this`workers, this`run, locks
      ensures Valid()
      ensures Untouched(old(run), old(Volume()), run, Volume(), Asker(q), ProviderAt(old(PlaceOf(Abs(), Asker(q)))))
      ensures lease.Some? ==> PlaceOf(Abs(), Asker(q)) == GrantedPlace(q, old(PlaceOf(Abs(), Asker(q))), lease.value)
      ensures lease.None? ==> PlaceOf(Abs(), Asker(q)) == RefusedPlace(q, old(PlaceOf(Abs(), Asker(q))), gives)
      ensures OwnRows(locks.Contents(), Asker(q))
              <= old(OwnRows(locks.Contents(), Asker(q))) + (if lease.Some? then {lease.value.id} else {})
      ensures lease.Some? ==> lease.value.id >= old(locks.nextId) && |run.acts| > |old(run).acts|
      ensures lease.Some? ==> run.acts[|run.acts| - 1] == Attempt(q, lease.value.since, false)
      ensures lease.None? ==>
                var (path, mode) := LeaseWanted(q, old(PlaceOf(Abs(), Asker(q))));
                KeptOut(run, |old(run).acts|, |run.acts|, Asker(q), path, mode)
      // It takes the lease with the first request that no unexpired row keeps out.
      ensures lease.Some? ==>
                var (path, mode) := LeaseWanted(q, old(PlaceOf(Abs(), Asker(q))));
                && OnlyRefused(run, |old(run).acts|, |run.acts| - 1, Asker(q), path, mode)
                && LetIn(run, |run.acts| - 1, Asker(q), path, mode)
      ensures locks.nextId >= old(locks.nextId) && monotonic >= old(monotonic)
      // It gives up only at or after the deadline, and sleeps no longer than the timeout.
      ensures lease.None? ==> monotonic >= old(monotonic) + timeout
      ensures Slept(old(naps)) <= Slept(naps) <= Slept(old(naps)) + Patience(timeout)
      // The attempts it makes are all it does to the shared state.
      ensures var attempts := OwnActions(run.acts[|old(run).acts|..], Asker(q));
              && (if timeout <= 0.0 then attempts == 1 else 1 <= attempts <= Ceil(timeout / LOCK_POLL_INTERVAL) + 1)
              && |naps| == |old(naps)| + attempts - 1
              && Slept(naps) <= Slept(old(naps)) + LOCK_POLL_INTERVAL * (attempts - 1) as real
      // Between two attempts it sleeps for the poll interval, or for what is left of the timeout before the last one.
      ensures Polls(run, |old(run).acts|, old(naps), naps, Asker(q))
      ensures forall i | |old(naps)| <= i < |naps| - 1 :: naps[i].duration == LOCK_POLL_INTERVAL
    {
      hide IsRun, StepOk, Apply, Enabled, SameFor, OwnRows, Untouched, RunsInTime, OnlyOthers, Extends, Refused, LetIn,
           LeaseWanted, OwnActions, KeptOut, OnlyRefused, GrantedPlace, PlaceOf, MayAsk, Attempt, By, Polls, Slept;
      var me := Asker(q);
      NoNaps(run, |run.acts|, naps, me);
      ghost var (path, mode) := LeaseWanted(q, PlaceOf(Abs(), me));
      NoneRefused(run, me, path, mode);
      ghost var place, p := PlaceOf(Abs(), me), ProviderAt(PlaceOf(Abs(), me));
      UntouchedAtFirst(run, Volume(), me, p);
      NoActions(run, me);
      ghost var begun, attempts := monotonic, 0;
      var deadline := monotonic + timeout;
      while true
        invariant Valid() && Untouched(old(run), old(Volume()), run, Volume(), me, p)
        invariant PlaceOf(Abs(), me) == place
        invariant OnlyRefused(run, |old(run).acts|, |run.acts|, me, path, mode)
        invariant OwnRows(locks.Contents(), me) <= old(OwnRows(locks.Contents(), me))
        invariant locks.nextId >= old(locks.nextId) && monotonic >= begun && |run.acts| >= |old(run).acts|
        invariant OwnActions(run.acts[|old(run).acts|..], me) == attempts && |naps| == |old(naps)| + attempts
        invariant Polls(run, |old(run).acts|, old(naps), naps, me)
        invariant Slept(old(naps)) <= Slept(naps) <= Slept(old(naps)) + monotonic - begun
        invariant Slept(naps) <= Slept(old(naps)) + (if attempts > 0 then timeout else 0.0)
        invariant forall i | |old(naps)| <= i < |naps| :: naps[i].duration == LOCK_POLL_INTERVAL
                                                          || (i == |naps| - 1 && monotonic - begun >= timeout)
        invariant attempts > 0 ==> timeout > LOCK_POLL_INTERVAL * (attempts - 1) as real
        invariant attempts > 0 ==>
                    monotonic - begun >= timeout || monotonic - begun >= LOCK_POLL_INTERVAL * attempts as real
        decreases Ceil(timeout / LOCK_POLL_INTERVAL) + 1 - attempts
      {
        var remaining;
        ghost var r1 := run;
        lease, remaining := TryNext(q, deadline, gives, old(run), old(Volume()), p, path, mode);
        attempts := attempts + 1;
        if lease.Some? || remaining <= 0.0 {
          PollsStay(r1, run, |old(run).acts|, old(naps), naps, me);
          NapsAreShort(run, |old(run).acts|, old(naps), naps, me);
          return;
        }
        var pause := if remaining < LOCK_POLL_INTERVAL then remaining else LOCK_POLL_INTERVAL;
        ghost var r2, f2 := run, Volume();
        NapAfterRefusal(r1, run, |old(run).acts|, old(naps), naps, me, path, mode, pause);
        Sleep(pause, me);
        UntouchedTransitive(old(run), old(Volume()), r2, f2, run, Volume(), me, p);
        UntouchedExtends(r2, f2, run, Volume(), me, p);
        NoMoreActions(r2, run, |old(run).acts|, me);
        OthersBetweenRefusals(r2, run, |old(run).acts|, me, path, mode);
        PollsStay(r2, run, |old(run).acts|, old(naps), naps, me);
      }
    }

    /** One access of a worker to the shared state: it moves on and perhaps releases its lease. */
    method MoveWorker(a: Action, w: nat, next: Option<Worker>, release: Option<nat>)
      requires Valid() && By(a) == Some(WorkerProc(w))
      requires var table := if release.Some? then AfterRelease(locks.Contents(), release.value) else locks.Contents();
               StepOk(Abs(), a, WorkerMoved(Abs(), w, next, table))
      modifies this`workers, this`run, locks
      ensures Valid() && Extends(old(run), run) && Volume() == old(Volume())
      ensures |run.acts| == |old(run).acts| + 1 && run.states[|old(run).acts|].files == run.states[|run.acts|].files
      ensures PlaceOf(Abs(), WorkerProc(w)) == WorkerAt(next)
      ensures OwnRows(locks.Contents(), WorkerProc(w))
              <= old(OwnRows(locks.Contents(), WorkerProc(w))) - (if release.Some? then {release.value} else {})
      ensures locks.nextId == old(locks.nextId)
    {
      hide IsRun, StepOk, Apply, Enabled;
      WorkerMoves(Abs(), w, next,
                  if release.Some? then AfterRelease(locks.Contents(), release.value) else locks.Contents());
      if release.Some? {
        locks.Release(release.value);
      }
      workers := PutWorker(workers, WorkerProc(w), WorkerAt(next));
      Record(a);
    }

    /** `link.resolve(strict=True)` */
    method ResolveCurrent(w: nat, p: Provider, tries: nat) returns (target: Option<Gen>, ghost seen: nat)
      requires Valid() && PlaceOf(Abs(), WorkerProc(w)) == WorkerAt(Some(Worker(p, tries + 1, Resolve)))
      modifies this`now, this`stamp, this`monotonic, this`links, this`staged, this`dirs, this`published,
               this`builders, this`workers, this`run, locks
      ensures Valid() && Untouched(old(run), old(Volume()), run, Volume(), WorkerProc(w), None)
      ensures PlaceOf(Abs(), WorkerProc(w))
              == WorkerAt(Some(Worker(p, tries, if target.Some? then Lock(target.value) else Resolve)))
      ensures OwnRows(locks.Contents(), WorkerProc(w)) <= old(OwnRows(locks.Contents(), WorkerProc(w)))
      ensures |old(run).acts| <= seen == |run.acts| - 1 && Resolved(run.states[seen].files, p) == target
      ensures monotonic >= old(monotonic)
    {
      hide IsRun, StepOk, Apply, Enabled, OwnRows, Untouched, RunsInTime, OnlyOthers, SameFor;
      ghost var me, r0, f0 := WorkerProc(w), run, Volume();
      Others(WorkerProc(w));
      target := if p in links && links[p] in dirs then Some(links[p]) else None;
      ghost var r1, f1 := run, Volume();
      seen := |run.acts|;
      ResolveIsAnAction(Abs(), w);
      MoveWorker(WResolve(w), w, Some(Worker(p, tries, if target.Some? then Lock(target.value) else Resolve)), None);
      UntouchedByOwnStep(r0, f0, r1, f1, run, me, None);
    }

    /** The look at the link under the lease; a lease on a generation that was replaced is given back. */
    method CheckStillCurrent(w: nat, p: Provider, tries: nat, g: Gen, lease: Lease)
      returns (isCurrent: bool, ghost checked: nat)
      requires Valid() && PlaceOf(Abs(), WorkerProc(w)) == WorkerAt(Some(Worker(p, tries, Check(g, lease))))
      modifies this`now, this`stamp, this`monotonic, this`links, this`staged, this`dirs, this`published,
               this`builders, this`workers, this`run, locks
      ensures Valid() && Untouched(old(run), old(Volume()), run, Volume(), WorkerProc(w), None)
      ensures PlaceOf(Abs(), WorkerProc(w))
                == WorkerAt(Some(Worker(p, tries, if isCurrent then Read(g, lease) else Resolve)))
      ensures OwnRows(locks.Contents(), WorkerProc(w))
              <= old(OwnRows(locks.Contents(), WorkerProc(w))) - (if isCurrent then {} else {lease.id})
      ensures |old(run).acts| <= checked < |run.acts|
      ensures isCurrent <==> Resolved(run.states[checked].files, p) == Some(g)
      ensures monotonic >= old(monotonic)
    {
      hide IsRun, StepOk, Apply, Enabled, OwnRows, Untouched, RunsInTime, OnlyOthers, SameFor;
      ghost var me, r0, f0 := WorkerProc(w), run, Volume();
      Others(WorkerProc(w));
      isCurrent := p in links && links[p] in dirs && links[p] == g;
      ghost var r1, f1 := run, Volume();
      checked := |run.acts|;
      CheckIsAnAction(Abs(), w);
      MoveWorker(WCheck(w), w, Some(Worker(p, tries, if isCurrent then Read(g, lease) else Drop(g, lease))), None);
      UntouchedByOwnStep(r0, f0, r1, f1, run, me, None);
      if !isCurrent {
        r1, f1 := run, Volume();
        GiveBack(w, p, tries, g, lease);
        UntouchedTransitive(r0, f0, r1, f1, run, Volume(), me, None);
        UntouchedExtends(r1, f1, run, Volume(), me, None);
      }
    }

    /** `_release` in the `finally` of a failed attempt. */
    method GiveBack(w: nat, p: Provider, tries: nat, g: Gen, lease: Lease)
      requires Valid() && PlaceOf(Abs(), WorkerProc(w)) == WorkerAt(Some(Worker(p, tries, Drop(g, lease))))
      modifies this`now, this`stamp, this`monotonic, this`links, this`staged, this`dirs, this`published,
               this`builders, this`workers, this`run, locks
      ensures Valid() && Untouched(old(run), old(Volume()), run, Volume(), WorkerProc(w), None)
      ensures PlaceOf(Abs(), WorkerProc(w)) == WorkerAt(Some(Worker(p, tries, Resolve)))
      ensures OwnRows(locks.Contents(), WorkerProc(w)) <= old(OwnRows(locks.Contents(), WorkerProc(w))) - {lease.id}
      ensures monotonic >= old(monotonic)
    {
      hide IsRun, StepOk, Apply, Enabled, OwnRows, Untouched, RunsInTime, OnlyOthers, SameFor;
      ghost var me, r0, f0 := WorkerProc(w), run, Volume();
      Others(WorkerProc(w));
      ghost var r1, f1 := run, Volume();
      DropIsAnAction(Abs(), w);
      MoveWorker(WDrop(w), w, Some(Worker(p, tries, Resolve)), Some(lease.id));
      UntouchedByOwnStep(r0, f0, r1, f1, run, me, None);
    }

    /** `_acquire` of the shared lease on the generation that the link was resolved to. */
    method LeaseShared(w: nat, p: Provider, tries: nat, g: Gen, timeout: real)
      returns (lease: Option<Lease>, ghost granted: nat)
      requires Valid() && PlaceOf(Abs(), WorkerProc(w)) == WorkerAt(Some(Worker(p, tries, Lock(g))))
      modifies this`now, this`stamp, this`monotonic, this`naps, this`links, this`staged, this`dirs, this`published,
               this`builders, this`workers, this`run, locks
      ensures Valid() && Untouched(old(run), old(Volume()), run, Volume(), WorkerProc(w), None)
      ensures PlaceOf(Abs(), WorkerProc(w))
                == WorkerAt(Some(Worker(p, tries, if lease.Some? then Check(g, lease.value) else Resolve)))
      ensures OwnRows(locks.Contents(), WorkerProc(w))
              <= old(OwnRows(locks.Contents(), WorkerProc(w))) + (if lease.Some? then {lease.value.id} else {})
      ensures lease.Some? ==> && granted + 1 == |run.acts| && |old(run).acts| <= granted
                              && run.acts[granted] == WTry(w, lease.value.since, false)
      // Without the lease the timeout has passed, and every time it asked somebody held the generation.
      ensures lease.None? ==> KeptOut(run, |old(run).acts|, |run.acts|, WorkerProc(w), GenerationDir(g), Shared)
      ensures lease.None? ==> monotonic >= old(monotonic) + timeout
      ensures monotonic >= old(monotonic)
      ensures Polls(run, |old(run).acts|, old(naps), naps, WorkerProc(w))
      ensures Slept(naps) <= Slept(old(naps)) + Patience(timeout)
    {
      hide Polls, Slept, KeptOut, OnlyRefused, Refused, IsRun, StepOk, Apply, Enabled, OwnRows, Untouched, RunsInTime,
           OnlyOthers, SameFor, Extends;
      lease := Acquire(ForRead(w), timeout, true);
      granted := if lease.Some? then |run.acts| - 1 else 0;
    }

    /** The first half of an attempt: the generation that the link names, and a lease on it. */
    method ResolveAndLease(w: nat, p: Provider, timeout: real, tries: nat)
      returns (g: Gen, lease: Option<Lease>, ghost cause: Cause, ghost seen: nat, ghost granted: nat)
      requires Valid() && PlaceOf(Abs(), WorkerProc(w)) == WorkerAt(Some(Worker(p, tries + 1, Resolve)))
      modifies this`now, this`stamp, this`monotonic, this`naps, this`links, this`staged, this`dirs, this`published,
               this`builders, this`workers, this`run, locks
      ensures Valid() && Untouched(old(run), old(Volume()), run, Volume(), WorkerProc(w), None)
      ensures PlaceOf(Abs(), WorkerProc(w))
                == WorkerAt(Some(Worker(p, tries, if lease.Some? then Check(g, lease.value) else Resolve)))
      ensures OwnRows(locks.Contents(), WorkerProc(w))
              <= old(OwnRows(locks.Contents(), WorkerProc(w))) + (if lease.Some? then {lease.value.id} else {})
      ensures lease.Some? ==>
                && |old(run).acts| <= seen <= granted < |run.acts| && Resolved(run.states[seen].files, p) == Some(g)
                && run.acts[granted].WTry? && By(run.acts[granted]) == Some(WorkerProc(w))
      ensures lease.None? ==> CauseOk(run, w, p, |old(run).acts|, timeout, cause)
      ensures monotonic >= old(monotonic) + (if lease.None? then WaitedFor(cause) else 0.0) >= old(monotonic)
      ensures Polls(run, |old(run).acts|, old(naps), naps, WorkerProc(w))
      ensures Slept(naps) <= Slept(old(naps)) + Patience(timeout)
    {
      hide Polls, Slept, Patience, Moves, CauseOk, KeptOut, OnlyRefused, IsRun, StepOk, Apply, Enabled, OwnRows,
           Untouched, RunsInTime, OnlyOthers, SameFor, Resolved, Extends, PlaceOf, FilesQuiet, Refused;
      ghost var me, r0, f0 := WorkerProc(w), run, Volume();
      granted, lease, g := 0, None, Gen(p, 0);
      var target;
      target, seen := ResolveCurrent(w, p, tries);
      NoNaps(run, |r0.acts|, naps, me);
      NoPatience(timeout);
      if target.None? {
        UnresolvedOrTimedOut(run, |r0.acts|, w, p, timeout, seen, |run.acts|, timeout);
        cause := Unresolved(seen);
        return;
      }
      g := target.value;
      UntouchedExtends(r0, f0, run, Volume(), me, None);
      ghost var r1, f1, asked := run, Volume(), monotonic;
      lease, granted := LeaseShared(w, p, tries, g, timeout);
      UntouchedTransitive(r0, f0, r1, f1, run, Volume(), me, None);
      UntouchedExtends(r1, f1, run, Volume(), me, None);
      StatesAreKept(r1, run, seen);
      PollsBoth(r1, run, |r0.acts|, |r1.acts|, old(naps), old(naps), naps, me);
      UnresolvedOrTimedOut(run, |r0.acts|, w, p, timeout, seen, |run.acts|, monotonic - asked);
      cause := TimedOut(seen, |run.acts|, g, monotonic - asked);
    }

    /** One attempt of `lock_generation_shared`; it ends reading, or without a lease and with a cause. */
    method TryCurrent(w: nat, p: Provider, timeout: real, tries: nat)
      returns (g: Option<Gen>, lease: Option<Lease>, ghost cause: Cause, ghost seen: nat, ghost granted: nat,
               ghost checked: nat)
      requires Valid() && PlaceOf(Abs(), WorkerProc(w)) == WorkerAt(Some(Worker(p, tries + 1, Resolve)))
      modifies this`now, this`stamp, this`monotonic, this`naps, this`links, this`staged, this`dirs, this`published,
               this`builders, this`workers, this`run, locks
      ensures Valid() && Untouched(old(run), old(Volume()), run, Volume(), WorkerProc(w), None)
      ensures g.Some? <==> lease.Some?
      ensures g.Some? ==> PlaceOf(Abs(), WorkerProc(w)) == WorkerAt(Some(Worker(p, tries, Read(g.value, lease.value))))
      ensures g.None? ==> PlaceOf(Abs(), WorkerProc(w)) == WorkerAt(Some(Worker(p, tries, Resolve)))
      ensures OwnRows(locks.Contents(), WorkerProc(w))
              <= old(OwnRows(locks.Contents(), WorkerProc(w))) + (if lease.Some? then {lease.value.id} else {})
      ensures g.Some? ==> NamedBeforeAndAfter(run, |old(run).acts|, w, p, g.value, seen, granted, checked)
      ensures g.None? ==> CauseOk(run, w, p, |old(run).acts|, timeout, cause)
      ensures g.None? ==> monotonic >= old(monotonic) + WaitedFor(cause) >= old(monotonic)
      ensures Polls(run, |old(run).acts|, old(naps), naps, WorkerProc(w))
      ensures Slept(naps) <= Slept(old(naps)) + Patience(timeout)
    {
      hide Polls, Slept, Patience, Moves, NamedBeforeAndAfter, CauseOk, KeptOut, OnlyRefused, IsRun, StepOk, Apply,
           Enabled, OwnRows, Untouched, RunsInTime, OnlyOthers, SameFor, Resolved, Extends, PlaceOf, FilesQuiet,
           Refused;
      ghost var me, r0, f0 := WorkerProc(w), run, Volume();
      checked := 0;
      var target;
      target, lease, cause, seen, granted := ResolveAndLease(w, p, timeout, tries);
      if lease.None? {
        return None, None, cause, 0, 0, 0;
      }
      ghost var r1, f1 := run, Volume();
      var isCurrent;
      isCurrent, checked := CheckStillCurrent(w, p, tries, target, lease.value);
      UntouchedTransitive(r0, f0, r1, f1, run, Volume(), me, None);
      UntouchedExtends(r1, f1, run, Volume(), me, None);
      StatesAreKept(r1, run, seen);
      StatesAreKept(r1, run, granted);
      NamedOrReplaced(run, |r0.acts|, w, p, target, timeout, seen, granted, checked);
      PollsStay(r1, run, |r0.acts|, old(naps), naps, me);
      if isCurrent {
        return Some(target), lease, Unresolved(0), seen, granted, checked;
      }
      return None, None, Replaced(seen, checked), 0, 0, 0;
    }

    /**
     * `lock_generation_shared` up to the body it guards: resolve the link, lease what it names,
     * and look again. It ends up reading the generation under a lease, or without any.
     */
    method EnterShared(w: nat, p: Provider, timeout: real)
      returns (g: Option<Gen>, lease: Option<Lease>, ghost causes: seq<Cause>, ghost seen: nat, ghost granted: nat,
               ghost checked: nat)
      requires Valid() && w !in workers
      modifies this`now, this`stamp, this`monotonic, this`naps, this`links, this`staged, this`dirs, this`published,
               this`builders, this`workers, this`run, locks
      ensures Valid() && Untouched(old(run), old(Volume()), run, Volume(), WorkerProc(w), None)
      ensures g.Some? <==> lease.Some?
      ensures g.Some? ==> w in workers && workers[w].provider == p && workers[w].spot == Read(g.value, lease.value)
      ensures g.None? ==> w !in workers
      // Of the rows the worker owns afterwards none is new but that of the lease it returns with.
      ensures OwnRows(locks.Contents(), WorkerProc(w))
              <= old(OwnRows(locks.Contents(), WorkerProc(w))) + (if lease.Some? then {lease.value.id} else {})
      // What it hands out was named by the link before the lease was granted and after.
      ensures g.Some? ==> NamedBeforeAndAfter(run, |old(run).acts|, w, p, g.value, seen, granted, checked)
      // It raises only if a lease was refused all through the timeout, the link had no target, or it moved twice.
      ensures g.None? ==>
                && |causes| == RESOLVE_ATTEMPTS && CausesOk(run, w, p, |old(run).acts|, timeout, causes)
                && MayRaise(run, w, p, |old(run).acts|, timeout, causes)
      ensures g.None? ==> monotonic >= old(monotonic) + TimeWaited(causes)
      // It sleeps between its requests for a lease only, and for no more than a timeout in each attempt.
      ensures Polls(run, |old(run).acts|, old(naps), naps, WorkerProc(w))
      ensures Slept(naps) <= Slept(old(naps)) + PatienceFor(RESOLVE_ATTEMPTS, timeout)
    {
      hide Polls, Slept, Patience, PatienceFor, TimeWaited, MayAsk, Refused, KeptOut, IsRun, StepOk, Apply, Enabled,
           OwnRows, Untouched, RunsInTime, OnlyOthers, SameFor, NamedBeforeAndAfter, CausesOk, CauseOk, MayRaise;
      ghost var me, from, r0, f0 := WorkerProc(w), |run.acts|, run, Volume();
      UntouchedAtFirst(run, Volume(), me, None);
      BeginIsAnAction(Abs(), w, p);
      var tries := RESOLVE_ATTEMPTS;
      MoveWorker(WStart(w, p), w, Some(Worker(p, tries, Resolve)), None);
      UntouchedByOwnStep(r0, f0, r0, f0, run, me, None);
      causes, seen, granted, checked := [], 0, 0, 0;
      g, lease := None, None;
      NoCausesYet(run, w, p, from, timeout);
      NoNaps(run, from, naps, me);
      NoPatience(timeout);
      while tries > 0
        invariant 0 <= tries <= RESOLVE_ATTEMPTS && |causes| == RESOLVE_ATTEMPTS - tries
        invariant Valid() && Untouched(r0, f0, run, Volume(), me, None)
        invariant PlaceOf(Abs(), me) == WorkerAt(Some(Worker(p, tries, Resolve)))
        invariant OwnRows(locks.Contents(), me) <= old(OwnRows(locks.Contents(), me))
        invariant CausesOk(run, w, p, from, timeout, causes) && monotonic >= old(monotonic) + TimeWaited(causes)
        invariant Polls(run, from, old(naps), naps, me)
        invariant Slept(naps) <= Slept(old(naps)) + PatienceFor(|causes|, timeout)
        invariant g == None && lease == None
      {
        tries := tries - 1;
        ghost var cause, r1, f1 := Unresolved(0), run, Volume();
        UntouchedExtends(r0, f0, r1, f1, me, None);
        ghost var before := naps;
        g, lease, cause, seen, granted, checked := TryCurrent(w, p, timeout, tries);
        UntouchedTransitive(r0, f0, r1, f1, run, Volume(), me, None);
        UntouchedExtends(r1, f1, run, Volume(), me, None);
        PollsBoth(r1, run, from, |r1.acts|, old(naps), before, naps, me);
        if g.Some? {
          OneMorePatience(|causes|, RESOLVE_ATTEMPTS, timeout);
          NamedFromEarlier(run, from, |r1.acts|, w, p, g.value, seen, granted, checked);
          return;
        }
        CauseAdded(r1, run, w, p, from, timeout, causes, cause);
        OneMoreWait(causes, cause);
        OneMorePatience(|causes|, RESOLVE_ATTEMPTS, timeout);
        causes := causes + [cause];
      }
      ghost var failed := run;
      RaiseError(w, p, timeout, causes, r0, f0);
      PollsStay(failed, run, from, old(naps), naps, me);
    }

    /** Both attempts have failed, for these reasons. */
    method RaiseError(w: nat, p: Provider, ghost timeout: real, ghost causes: seq<Cause>, ghost r0: Run,
                      ghost f0: Files)
      requires Valid() && PlaceOf(Abs(), WorkerProc(w)) == WorkerAt(Some(Worker(p, 0, Resolve)))
      requires Untouched(r0, f0, run, Volume(), WorkerProc(w), None)
      requires |causes| == RESOLVE_ATTEMPTS && CausesOk(run, w, p, |r0.acts|, timeout, causes)
      modifies this`workers, this`run, locks
      ensures Valid() && w !in workers && Untouched(r0, f0, run, Volume(), WorkerProc(w), None)
      ensures Extends(old(run), run)
      ensures OwnRows(locks.Contents(), WorkerProc(w)) <= old(OwnRows(locks.Contents(), WorkerProc(w)))
      ensures |r0.acts| < |run.states| && CausesOk(run, w, p, |r0.acts|, timeout, causes)
      ensures MayRaise(run, w, p, |r0.acts|, timeout, causes)
    {
      hide IsRun, StepOk, Apply, Enabled, OwnRows, Untouched, RunsInTime, OnlyOthers, SameFor, CausesOk, MayRaise;
      ghost var r1, f1 := run, Volume();
      RaiseIsAnAction(Abs(), w);
      MoveWorker(WRaise(w), w, None, None);
      UntouchedByOwnStep(r0, f0, r1, f1, run, WorkerProc(w), None);
      UntouchedExtends(r0, f0, run, Volume(), WorkerProc(w), None);
      CausesStayOk(r1, run, w, p, |r0.acts|, timeout, causes);
      BothAttemptsFailed(run, w, p, |r0.acts|, timeout, causes);
    }

    /** Leaving `lock_generation_shared`, normally or because the body raised. */
    method ExitShared(w: nat)
      requires Valid() && w in workers && workers[w].spot.Read?
      modifies this`now, this`stamp, this`monotonic, this`links, this`staged, this`dirs, this`published,
               this`builders, this`workers, this`run, locks
      ensures Valid() && Untouched(old(run), old(Volume()), run, Volume(), WorkerProc(w), None)
      ensures w !in workers
      ensures OwnRows(locks.Contents(), WorkerProc(w))
              <= old(OwnRows(locks.Contents(), WorkerProc(w))) - {old(workers)[w].spot.lease.id}
    {
      hide IsRun, StepOk, Apply, Enabled, OwnRows, Untouched, RunsInTime, OnlyOthers, SameFor;
      ghost var me, r0, f0 := WorkerProc(w), run, Volume();
      Others(WorkerProc(w));
      ghost var r1, f1 := run, Volume();
      DoneIsAnAction(Abs(), w);
      MoveWorker(WDone(w), w, None, Some(workers[w].spot.lease.id));
      UntouchedByOwnStep(r0, f0, r1, f1, run, me, None);
    }
  }
}
