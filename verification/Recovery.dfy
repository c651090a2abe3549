/** Finalization, recovery and reconciliation by one process (recovery_service.py), first as
    functions of the stored state, then as the service object that performs them. */
module Recovery {
  import opened Prelude
  import opened Domain
  import opened RunStore
  import opened RunRepository
  import opened Artifacts

  datatype Store = Store(db: Db, files: map<RunId, Files>)

  /** The file operations that raise during one attempt. */
  datatype Faults = Faults(save: bool, scrub: set<PrivateFile>)

  const NO_FAULTS := Faults(false, {})

  datatype ErrorCode = ResultPending | CleanupPending

  datatype Report = Report(runId: RunId, pending: bool, active: bool, errors: seq<ErrorCode>)

  /** The terminal record a finalizer works from: it may have to expire the lease first. */
  predicate Owes(db: Db, id: RunId) {
    id in db.runs && !db.runs[id].data.state.Running? && db.runs[id].pending
  }

  function Errors(f: Faults): seq<ErrorCode> {
    (if f.save then [ResultPending] else []) + (if f.scrub != {} then [CleanupPending] else [])
  }

  function AfterFiles(files: map<RunId, Files>, run: Run, f: Faults): map<RunId, Files> {
    var before := FilesIn(files, run.runId);
    files[run.runId := Files(if f.save then before.result else Some(run), before.private * f.scrub)]
  }

  function Settle(st: Store, id: RunId): Store
    requires id in st.db.runs
  {
    st.(db := SettledTx(st.db, id, !Uncertain(st.db.runs[id].data.effects)).0)
  }

  /** `finalize`: `idle` is whether the exclusive activity lock could be had. */
  function FinalizeSpec(st: Store, id: RunId, idle: bool, now: real, at: Stamp, f: Faults): (Store, Result<Report, DbError>) {
    if !idle then (st, Ok(Report(id, true, true, []))) else
    var (db, got) := GetTx(st.db, id, now, at);
    var st1 := st.(db := db);
    if got.Err? then (st1, Err(got.error))
    else if got.value.state.Running? then (st1, Ok(Report(id, true, false, [])))
    else if !db.runs[id].pending then (st1, Ok(Report(id, false, false, [])))
    else
      var st2 := st1.(files := AfterFiles(st.files, got.value, f));
      if Errors(f) == [] then (Settle(st2, id), Ok(Report(id, false, false, [])))
      else (st2, Ok(Report(id, true, false, Errors(f))))
  }

  ghost predicate Sound(st: Store) {
    Valid(st.db)
  }

  // ----- finalization can be repeated

  /** How far an attempt got before it was stopped: the files it reached and those that
      raised. It was stopped before the settling transaction. */
  datatype Attempt = Attempt(savedFirst: bool, reached: set<PrivateFile>, faults: Faults)

  function Interrupted(st: Store, run: Run, a: Attempt): Store {
    st.(files := AfterFiles(st.files, run,
                            Faults(!a.savedFirst || a.faults.save,
                                   set f: PrivateFile | f !in a.reached || f in a.faults.scrub)))
  }

  function AfterAttempts(st: Store, run: Run, attempts: seq<Attempt>): Store
    decreases |attempts|
  {
    if attempts == [] then st else AfterAttempts(Interrupted(st, run, attempts[0]), run, attempts[1..])
  }

  /** The state finalization leads to: the record as it is, its result file equal to it, no
      private input, the pending mark gone, and the lock gone unless effects are uncertain. */
  ghost predicate Finalized(st: Store, st': Store, id: RunId)
    requires id in st.db.runs
  {
    && st'.db.runs.Keys == st.db.runs.Keys
    && st'.db.runs[id] == st.db.runs[id].(pending := false)
    && (forall r :: r in st.db.runs && r != id ==> st'.db.runs[r] == st.db.runs[r])
    && FilesIn(st'.files, id) == Files(Some(st.db.runs[id].data), {})
    && (forall r :: r != id ==> FilesIn(st'.files, r) == FilesIn(st.files, r))
    && (forall k :: k in st'.db.locks <==>
          k in st.db.locks && (st.db.locks[k] != id || Uncertain(st.db.runs[id].data.effects)))
    && (forall k :: k in st'.db.locks ==> st'.db.locks[k] == st.db.locks[k])
    && st'.db.requests == st.db.requests
  }

  /** A complete attempt on a run that owes finalization reaches that state. */
  lemma FinalizeCompletes(st: Store, id: RunId, now: real, at: Stamp)
    requires Sound(st) && Owes(st.db, id)
    ensures var (st', r) := FinalizeSpec(st, id, true, now, at, NO_FAULTS);
      r == Ok(Report(id, false, false, [])) && Finalized(st, st', id)
  {
  }

  /** An attempt with faults settles nothing, says which part failed, and has still done every
      operation that did not raise. */
  lemma FaultsLeavePending(st: Store, id: RunId, now: real, at: Stamp, f: Faults)
    requires Sound(st) && Owes(st.db, id)
    ensures var (st', r) := FinalizeSpec(st, id, true, now, at, f);
      && r.Ok? && !r.value.active && (r.value.pending <==> f.save || f.scrub != {})
      && (r.value.pending ==> st'.db == st.db)
      && (ResultPending in r.value.errors <==> f.save) && (CleanupPending in r.value.errors <==> f.scrub != {})
      && (!f.save ==> FilesIn(st'.files, id).result == Some(st.db.runs[id].data))
      && FilesIn(st'.files, id).private == FilesIn(st.files, id).private * f.scrub
  {
  }

  /** Interrupted attempts, any number of them and stopped anywhere, leave the tables alone,
      so the run still owes finalization, and touch no other run's files. */
  lemma {:induction false} AttemptsLeavePending(st: Store, id: RunId, attempts: seq<Attempt>)
    requires Sound(st) && Owes(st.db, id)
    ensures var st' := AfterAttempts(st, st.db.runs[id].data, attempts);
      && st'.db == st.db && Owes(st'.db, id)
      && (forall r :: r != id ==> FilesIn(st'.files, r) == FilesIn(st.files, r))
      && FilesIn(st'.files, id).private <= FilesIn(st.files, id).private
    decreases |attempts|
  {
    if attempts != [] {
      AttemptsLeavePending(Interrupted(st, st.db.runs[id].data, attempts[0]), id, attempts[1..]);
    }
  }

  /** Finalization is crash-repeatable: after any number of interrupted attempts a complete
      one reaches the very state that it would have reached without them. */
  lemma RerunConverges(st: Store, id: RunId, attempts: seq<Attempt>, now: real, at: Stamp)
    requires Sound(st) && Owes(st.db, id)
    ensures var st' := FinalizeSpec(AfterAttempts(st, st.db.runs[id].data, attempts), id, true, now, at, NO_FAULTS).0;
      && Finalized(st, st', id)
      && st' == FinalizeSpec(st, id, true, now, at, NO_FAULTS).0
  {
    var run := st.db.runs[id].data;
    var st1 := AfterAttempts(st, run, attempts);
    AttemptsLeavePending(st, id, attempts);
    FinalizeCompletes(st1, id, now, at);
    FinalizeCompletes(st, id, now, at);
    AttemptsKeepKeys(st, run, attempts);
    var a, b := AfterFiles(st1.files, run, NO_FAULTS), AfterFiles(st.files, run, NO_FAULTS);
    assert a == b by {
      assert a.Keys == b.Keys;
      forall r | r in a ensures a[r] == b[r] {
        assert r != id ==> FilesIn(st1.files, r) == FilesIn(st.files, r);
      }
    }
  }

  lemma {:induction false} AttemptsKeepKeys(st: Store, run: Run, attempts: seq<Attempt>)
    ensures AfterAttempts(st, run, attempts).files.Keys + {run.runId} == st.files.Keys + {run.runId}
    decreases |attempts|
  {
    if attempts != [] {
      AttemptsKeepKeys(Interrupted(st, run, attempts[0]), run, attempts[1..]);
    }
  }

  /** Finalizing a settled run again does nothing. */
  lemma FinalizeIsIdempotent(st: Store, id: RunId, now: real, at: Stamp, f: Faults)
    requires Sound(st) && Owes(st.db, id)
    ensures var st' := FinalizeSpec(st, id, true, now, at, NO_FAULTS).0;
      FinalizeSpec(st', id, true, now, at, f) == (st', Ok(Report(id, false, false, [])))
  {
    FinalizeCompletes(st, id, now, at);
  }

  // ----- recovery drains its backlog

  const BATCH := 100

  /** One element of a `recover` round: expire first, even if the activity lock is held, then
      finalize. `busy` are the runs whose activity lock is held. */
  function RecoverOne(st: Store, id: RunId, busy: set<RunId>, now: real, at: Stamp, f: Faults): Store {
    FinalizeSpec(st.(db := GetTx(st.db, id, now, at).0), id, id !in busy, now, at, f).0
  }

  /** `faults` is what raises for each run. */
  function RecoverAll(st: Store, ids: seq<RunId>, busy: set<RunId>, now: real, at: Stamp, faults: RunId -> Faults): Store
    decreases |ids|, 1
  {
    if ids == [] then st else RecoverLast(st, ids, busy, now, at, faults)
  }

  function RecoverLast(st: Store, ids: seq<RunId>, busy: set<RunId>, now: real, at: Stamp, faults: RunId -> Faults): Store
    requires ids != []
    decreases |ids|, 0
  {
    var last := ids[|ids| - 1];
    RecoverOne(RecoverAll(st, ids[..|ids| - 1], busy, now, at, faults), last, busy, now, at, faults(last))
  }

  lemma RoundGrows(st: Store, ids: seq<RunId>, i: nat, busy: set<RunId>, now: real, at: Stamp, faults: RunId -> Faults)
    requires i < |ids|
    ensures RecoverAll(st, ids[..i + 1], busy, now, at, faults)
      == RecoverOne(RecoverAll(st, ids[..i], busy, now, at, faults), ids[i], busy, now, at, faults(ids[i]))
  {
    assert ids[..i + 1][..i] == ids[..i];
  }

  lemma ExpireIfDue(st: Store, id: RunId, now: real, at: Stamp)
    requires Sound(st) && id in Backlog(st.db, now)
    ensures var db := GetTx(st.db, id, now, at).0;
      && Valid(db) && Owes(db, id) && db.runs.Keys == st.db.runs.Keys
      && (forall r :: r in st.db.runs && r != id ==> db.runs[r] == st.db.runs[r])
  {
    ApplyKeepsValid(st.db, Tx.Get(id, now, at));
  }

  /** Recovering one run of the backlog ends it, and takes it out of the backlog exactly if
      its activity lock was free and nothing raised. */
  lemma RecoverOneSettles(st: Store, id: RunId, busy: set<RunId>, now: real, at: Stamp, f: Faults)
    requires Sound(st) && id in Backlog(st.db, now)
    ensures var st' := RecoverOne(st, id, busy, now, at, f);
      && Sound(st') && st'.db.runs.Keys == st.db.runs.Keys
      && !st'.db.runs[id].data.state.Running?
      && (st'.db.runs[id].pending <==> id in busy || Errors(f) != [])
      && (forall r :: r in st.db.runs && r != id ==> st'.db.runs[r] == st.db.runs[r])
      && (!st'.db.runs[id].pending ==> FilesIn(st'.files, id) == Files(Some(st'.db.runs[id].data), {}))
  {
    var st1 := st.(db := GetTx(st.db, id, now, at).0);
    ExpireIfDue(st, id, now, at);
    if id !in busy && Errors(f) == [] { SettleKeepsValid(st1.db, id, !Uncertain(st1.db.runs[id].data.effects)); }
  }

  /** A whole round: every run it touches is fenced, the idle ones without faults are settled,
      and no other run changes. */
  lemma {:induction false} RecoverAllSettles(st: Store, ids: seq<RunId>, busy: set<RunId>, now: real, at: Stamp, faults: RunId -> Faults)
    requires Sound(st) && Distinct(ids) && forall i :: 0 <= i < |ids| ==> ids[i] in Backlog(st.db, now)
    ensures var st' := RecoverAll(st, ids, busy, now, at, faults);
      && Sound(st') && st'.db.runs.Keys == st.db.runs.Keys
      && (forall r :: r in st.db.runs && r !in ids ==> st'.db.runs[r] == st.db.runs[r])
      && (forall r :: r in ids ==> r in st'.db.runs && !st'.db.runs[r].data.state.Running?
                                   && (st'.db.runs[r].pending <==> r in busy || Errors(faults(r)) != []))
    decreases |ids|
  {
    if ids != [] {
      var front, last := ids[..|ids| - 1], ids[|ids| - 1];
      assert ids == front + [last];
      RecoverAllSettles(st, front, busy, now, at, faults);
      assert last !in front;
      RecoverOneSettles(RecoverAll(st, front, busy, now, at, faults), last, busy, now, at, faults(last));
    }
  }

  function Unfailing(id: RunId): Faults {
    NO_FAULTS
  }

  lemma BacklogAfter(db: Db, db': Db, ids: seq<RunId>, now: real)
    requires db'.runs.Keys == db.runs.Keys
    requires forall r :: r in db.runs && r !in ids ==> db'.runs[r] == db.runs[r]
    requires forall r :: r in ids ==> r in db'.runs && !NeedsRecovery(db'.runs[r], now)
    ensures Backlog(db', now) == Backlog(db, now) - Elements(ids)
  {
  }

  lemma RoundShrinksBacklog(st: Store, ids: seq<RunId>, now: real, at: Stamp)
    requires Sound(st) && FirstOfBacklog(st.db, now, BATCH, ids)
    ensures var st' := RecoverAll(st, ids, {}, now, at, Unfailing);
      && Sound(st')
      && Backlog(st'.db, now) == Backlog(st.db, now) - Elements(ids)
      && |Backlog(st'.db, now)| == |Backlog(st.db, now)| - Min(BATCH, |Backlog(st.db, now)|)
  {
    var st' := RecoverAll(st, ids, {}, now, at, Unfailing);
    RecoverAllSettles(st, ids, {}, now, at, Unfailing);
    forall r | r in ids ensures r in st'.db.runs && !NeedsRecovery(st'.db.runs[r], now) {
      assert Errors(Unfailing(r)) == [];
    }
    BacklogAfter(st.db, st'.db, ids, now);
    DistinctSize(ids);
    assert Backlog(st.db, now) == Backlog(st'.db, now) + Elements(ids);
  }

  /** Consecutive `recover` calls at one time, with idle runs and no faults. */
  ghost predicate Rounds(sts: seq<Store>, idss: seq<seq<RunId>>, now: real, at: Stamp) {
    && |sts| == |idss| + 1
    && forall i :: 0 <= i < |idss| ==> Round(sts[i], idss[i], sts[i + 1], now, at)
  }

  ghost predicate Round(st: Store, ids: seq<RunId>, st': Store, now: real, at: Stamp) {
    FirstOfBacklog(st.db, now, BATCH, ids) && st' == RecoverAll(st, ids, {}, now, at, Unfailing)
  }

  /** A backlog of n runs is drained by ceil(n / 100) rounds and by no fewer. */
  lemma {:induction false} RoundsDrain(sts: seq<Store>, idss: seq<seq<RunId>>, now: real, at: Stamp, k: nat)
    requires Rounds(sts, idss, now, at) && k < |sts| && Sound(sts[0])
    ensures Sound(sts[k])
    ensures var n := |Backlog(sts[0].db, now)|;
      && |Backlog(sts[k].db, now)| == (if n <= BATCH * k then 0 else n - BATCH * k)
      && (Backlog(sts[k].db, now) == {} <==> k >= (n + BATCH - 1) / BATCH)
  {
    if k > 0 {
      RoundsDrain(sts, idss, now, at, k - 1);
      assert Round(sts[k - 1], idss[k - 1], sts[k], now, at);
      RoundShrinksBacklog(sts[k - 1], idss[k - 1], now, at);
    }
    assert |Backlog(sts[k].db, now)| == 0 <==> Backlog(sts[k].db, now) == {};
  }

  // ----- reconciliation

  /** `reconcile`: finalize, then release the resource under the exclusive lock. The two locks
      are taken one after the other, so each may find the run busy. */
  function ReconcileSpec(st: Store, id: RunId, idle: bool, stillIdle: bool, now: real, at: Stamp, f: Faults): (Store, Result<(), DbError>) {
    var (st1, r) := FinalizeSpec(st, id, idle, now, at, f);
    if r.Err? then (st1, Err(r.error))
    else if r.value.pending then (st1, Err(RecoveryRequired))
    else if !stillIdle then (st1, Err(RunActive))
    else
      var (db, released) := ReleaseLockTx(st1.db, id);
      (st1.(db := db), released)
  }

  /** A finalization that reports nothing pending leaves a settled run. */
  lemma NotPendingMeansSettled(st: Store, id: RunId, idle: bool, now: real, at: Stamp, f: Faults)
    requires Sound(st)
    ensures var (st1, r) := FinalizeSpec(st, id, idle, now, at, f);
      r.Ok? && !r.value.pending ==>
        idle && id in st1.db.runs && !st1.db.runs[id].data.state.Running? && !st1.db.runs[id].pending
  {
  }

  /** Reading frees no lock, and settling only the run's own. */
  lemma SettlingFreesOwn(db: Db, id: RunId, release: bool)
    requires id in db.runs
    ensures var db' := SettledTx(db, id, release).0;
      && (forall k :: k in db.locks && db.locks[k] != id ==> k in db'.locks)
      && (forall k :: k in db'.locks ==> k in db.locks && db'.locks[k] == db.locks[k])
  {
  }

  lemma GetKeepsLocks(db: Db, id: RunId, now: real, at: Stamp)
    requires Valid(db)
    ensures var db' := GetTx(db, id, now, at).0; db'.locks == db.locks && (id in db'.runs <==> id in db.runs)
  {
  }

  lemma FinalizeFreesOwn(st: Store, id: RunId, idle: bool, now: real, at: Stamp, f: Faults)
    requires Sound(st)
    ensures var st1 := FinalizeSpec(st, id, idle, now, at, f).0;
      && (forall k :: k in st.db.locks && st.db.locks[k] != id ==> k in st1.db.locks)
      && (forall k :: k in st1.db.locks ==> k in st.db.locks && st1.db.locks[k] == st.db.locks[k])
  {
    GetKeepsLocks(st.db, id, now, at);
    FinalizedTables(st, id, idle, now, at, f);
    var db := GetTx(st.db, id, now, at).0;
    if id in db.runs { SettlingFreesOwn(db, id, !Uncertain(db.runs[id].data.effects)); }
  }

  /** What an attempt does to the tables: nothing, reading, or reading and settling. */
  lemma FinalizedTables(st: Store, id: RunId, idle: bool, now: real, at: Stamp, f: Faults)
    ensures var db, st1 := GetTx(st.db, id, now, at).0, FinalizeSpec(st, id, idle, now, at, f).0;
      || st1.db == st.db || st1.db == db
      || (id in db.runs && st1.db == SettledTx(db, id, !Uncertain(db.runs[id].data.effects)).0)
  {
  }

  lemma FinalizeKeepsUncertain(st: Store, id: RunId, idle: bool, now: real, at: Stamp, f: Faults)
    requires Sound(st) && id in st.db.runs && Uncertain(st.db.runs[id].data.effects)
    ensures FinalizeSpec(st, id, idle, now, at, f).0.db.locks == st.db.locks
  {
    GetKeepsEffects(st.db, id, now, at);
  }

  /** It succeeds only on an idle, settled run, and then frees exactly that run's resource. A
      refusal leaves the lock of a run with uncertain effects in place. */
  lemma ReconcileReleases(st: Store, id: RunId, idle: bool, stillIdle: bool, now: real, at: Stamp, f: Faults)
    requires Sound(st)
    ensures var (st', r) := ReconcileSpec(st, id, idle, stillIdle, now, at, f);
      && (r.Ok? ==>
            && idle && stillIdle && id in st'.db.runs
            && !st'.db.runs[id].data.state.Running? && !st'.db.runs[id].pending
            && (forall k :: k in st'.db.locks <==> k in st.db.locks && st.db.locks[k] != id))
      && (r.Err? && id in st.db.runs && Uncertain(st.db.runs[id].data.effects) ==> st'.db.locks == st.db.locks)
  {
    NotPendingMeansSettled(st, id, idle, now, at, f);
    FinalizeFreesOwn(st, id, idle, now, at, f);
    if id in st.db.runs && Uncertain(st.db.runs[id].data.effects) {
      FinalizeKeepsUncertain(st, id, idle, now, at, f);
    }
  }

  /** Something of the run is left to do: its mark stands, or its lease has run out. */
  predicate Due(db: Db, id: RunId, now: real) {
    id in db.runs && (db.runs[id].pending || Expired(db.runs[id], now))
  }

  /** The run has ended, or a read will end it. */
  predicate Ends(db: Db, id: RunId, now: real) {
    id in db.runs && (!db.runs[id].data.state.Running? || Expired(db.runs[id], now))
  }

  /** The backlog is exactly what has something left to do. */
  lemma BacklogIsDue(db: Db, id: RunId, now: real)
    ensures id in Backlog(db, now) <==> Due(db, id, now)
  {
  }

  /** A batch is the oldest of it: by the last sign of life, and by id where that is the same. */
  lemma BatchIsOldest(db: Db, now: real, limit: nat, ids: seq<RunId>)
    requires FirstOfBacklog(db, now, limit, ids)
    ensures forall i :: 0 <= i < |ids| ==> Due(db, ids[i], now)
    ensures forall i, j :: 0 <= i < j < |ids| ==>
      && db.runs[ids[i]].heartbeat <= db.runs[ids[j]].heartbeat
      && (db.runs[ids[i]].heartbeat == db.runs[ids[j]].heartbeat ==> ids[i] < ids[j])
    ensures forall i, b :: 0 <= i < |ids| && Due(db, b, now) && b !in ids ==>
      db.runs[ids[i]].heartbeat <= db.runs[b].heartbeat
    ensures |ids| < limit ==> forall b :: Due(db, b, now) ==> b in ids
  {
    forall id ensures id in Backlog(db, now) <==> Due(db, id, now) { BacklogIsDue(db, id, now); }
    forall i, j | 0 <= i < j < |ids| ensures Before(db, ids[i], ids[j]) {}
    if |ids| < limit {
      DistinctSize(ids);
      assert Elements(ids) <= Backlog(db, now);
      forall b | Due(db, b, now) ensures b in ids {
        if b !in ids { SubsetSize(Elements(ids) + {b}, Backlog(db, now)); }
      }
    }
  }

  /** What finalization answers in every case: it says active exactly when the run was busy,
      and pending exactly when it was busy, is still alive, or something due was not done. It
      changes nothing where nothing is due. */
  lemma FinalizeAnswers(st: Store, id: RunId, idle: bool, now: real, at: Stamp, f: Faults)
    requires Sound(st)
    ensures var (st', r) := FinalizeSpec(st, id, idle, now, at, f);
      && (r.Err? <==> idle && id !in st.db.runs)
      && (r.Err? ==> r.error == RunNotFound)
      && (r.Ok? ==>
            && r.value.runId == id && (r.value.active <==> !idle)
            && (r.value.pending <==> !idle || !Ends(st.db, id, now) || (Due(st.db, id, now) && Errors(f) != [])))
      && (!idle || !Due(st.db, id, now) ==> st' == st)
  {
  }

  /** What it leaves of a run that was due: an ended record, settled exactly if nothing raised. */
  lemma FinalizeLeaves(st: Store, id: RunId, now: real, at: Stamp, f: Faults)
    requires Sound(st) && Due(st.db, id, now)
    ensures var st' := FinalizeSpec(st, id, true, now, at, f).0;
      && id in st'.db.runs && !st'.db.runs[id].data.state.Running?
      && (st'.db.runs[id].pending <==> Errors(f) != [])
      && (st.db.runs[id].pending ==> st'.db.runs[id].data == st.db.runs[id].data)
      && st'.db.runs[id].data.effects == st.db.runs[id].data.effects
      && (forall b :: b in st.db.runs && b != id ==> b in st'.db.runs && st'.db.runs[b] == st.db.runs[b])
      && (Errors(f) == [] ==> FilesIn(st'.files, id) == Files(Some(st'.db.runs[id].data), {}))
      && (if Errors(f) == [] && !Uncertain(st.db.runs[id].data.effects) then Frees(st.db.locks, st'.db.locks, id)
          else st'.db.locks == st.db.locks)
  {
    GetKeepsEffects(st.db, id, now, at);
    ReadingLeaves(st.db, id, now, at);
    var db := GetTx(st.db, id, now, at).0;
    ApplyKeepsValid(st.db, Tx.Get(id, now, at));
    SettlingLeaves(db, id, !Uncertain(db.runs[id].data.effects));
  }

  /** Reconciliation succeeds exactly when both locks are free, the run has ended or is
      overdue, and nothing raised if something was still due, whatever its effects. Then it
      is settled and no key is locked for it, and every other lock and row is as before. */
  lemma ReconcileSucceedsExactlyWhen(st: Store, id: RunId, idle: bool, stillIdle: bool, now: real, at: Stamp, f: Faults)
    requires Sound(st)
    ensures var (st', r) := ReconcileSpec(st, id, idle, stillIdle, now, at, f);
      var done := idle && Ends(st.db, id, now) && (Due(st.db, id, now) ==> Errors(f) == []);
      && (r.Ok? <==> done && stillIdle)
      && (r == Err(RunActive) <==> done && !stillIdle)
      && (r == Err(RunNotFound) <==> idle && id !in st.db.runs)
      && (r.Err? ==> r.error in {RunActive, RunNotFound, RecoveryRequired})
      && (r.Ok? ==>
            && id in st'.db.runs && !st'.db.runs[id].data.state.Running? && !st'.db.runs[id].pending
            && Frees(st.db.locks, st'.db.locks, id) && !OwnsLock(st'.db, id)
            && (forall b :: b in st.db.runs && b != id ==> b in st'.db.runs && st'.db.runs[b] == st.db.runs[b]))
  {
    var (st1, r) := FinalizeSpec(st, id, idle, now, at, f);
    FinalizeAnswers(st, id, idle, now, at, f);
    if idle && Due(st.db, id, now) { FinalizeLeaves(st, id, now, at, f); }
    FinalizeKeepsSound(st, id, idle, now, at, f);
    FreeingLeaves(st1.db, id);
  }

  lemma FinalizeKeepsSound(st: Store, id: RunId, idle: bool, now: real, at: Stamp, f: Faults)
    requires Sound(st)
    ensures Sound(FinalizeSpec(st, id, idle, now, at, f).0)
  {
    ApplyKeepsValid(st.db, Tx.Get(id, now, at));
    var db := GetTx(st.db, id, now, at).0;
    if id in db.runs { SettleKeepsValid(db, id, !Uncertain(db.runs[id].data.effects)); }
    FinalizedTables(st, id, idle, now, at, f);
  }

  lemma GetKeepsEffects(db: Db, id: RunId, now: real, at: Stamp)
    requires Valid(db) && id in db.runs
    ensures var db' := GetTx(db, id, now, at).0;
      && db'.locks == db.locks && id in db'.runs && db'.runs[id].data.effects == db.runs[id].data.effects
      && (db.runs[id].pending ==> db' == db)
  {
    assert ValidRow(id, db.runs[id]);
  }

  // ----- the service

  class RecoveryService {
    const runs: SqliteRuns
    const artifacts: FileArtifacts

    constructor (runs: SqliteRuns, artifacts: FileArtifacts)
      ensures this.runs == runs && this.artifacts == artifacts
    {
      this.runs, this.artifacts := runs, artifacts;
    }

    function Stored(): Store
      reads runs, artifacts
    {
      Store(runs.Tables(), artifacts.files)
    }

    /** Files are compared by content: an absent entry is a run without files. */
    ghost predicate Matches(st: Store)
      reads runs, artifacts
    {
      runs.Tables() == st.db && forall k :: FilesIn(artifacts.files, k) == FilesIn(st.files, k)
    }

    /** Stores the result and removes the private files, and goes on where something raises. */
    method SaveAndScrub(run: Run, f: Faults) returns (errors: seq<ErrorCode>)
      modifies artifacts
      ensures errors == Errors(f)
      ensures forall k :: FilesIn(artifacts.files, k) == FilesIn(AfterFiles(old(artifacts.files), run, f), k)
    {
      errors := [];
      var saved := artifacts.SaveResult(run, f.save);
      if !saved { errors := errors + [ResultPending]; }
      var scrubbed := artifacts.ScrubInputs(run.runId, f.scrub);
      if !scrubbed { errors := errors + [CleanupPending]; }
    }

    method Finalize(id: RunId, idle: bool, now: real, at: Stamp, f: Faults) returns (r: Result<Report, DbError>)
      requires runs.Inv()
      modifies runs, artifacts
      ensures runs.Inv()
      ensures Matches(FinalizeSpec(old(Stored()), id, idle, now, at, f).0)
      ensures r == FinalizeSpec(old(Stored()), id, idle, now, at, f).1
    {
      if !idle { return Ok(Report(id, true, true, [])); }
      var got := runs.Get(id, now, at);
      if got.Err? { return Err(got.error); }
      var run := got.value;
      if run.state.Running? { return Ok(Report(id, true, false, [])); }
      var pending := runs.IsPending(id);
      if !pending.value { return Ok(Report(id, false, false, [])); }
      assert run.runId == id && runs.Tables().runs[id].data == run;
      var errors := SaveAndScrub(run, f);
      if errors == [] {
        var settled := runs.Settled(id, !Uncertain(run.effects));
        assert settled.Ok?;
      }
      return Ok(Report(id, errors != [], false, errors));
    }

    /** Expire, then finalize, one run of the backlog. */
    method RecoverRun(id: RunId, busy: set<RunId>, now: real, at: Stamp, f: Faults) returns (report: Report)
      requires runs.Inv() && id in Backlog(runs.Tables(), now)
      modifies runs, artifacts
      ensures runs.Inv() && Matches(RecoverOne(old(Stored()), id, busy, now, at, f))
      ensures report == RoundReport(id, busy, f)
    {
      ExpireIfDue(Stored(), id, now, at);
      var seen := runs.Get(id, now, at);
      var r := Finalize(id, id !in busy, now, at, f);
      report := r.value;
    }

    /** The element `i` of a round that began in `st`. */
    method RecoverStep(ghost st: Store, ids: seq<RunId>, i: nat, now: real, at: Stamp, busy: set<RunId>, faults: RunId -> Faults)
      returns (report: Report)
      requires runs.Inv() && Sound(st) && FirstOfBacklog(st.db, now, BATCH, ids) && i < |ids|
      requires Matches(RecoverAll(st, ids[..i], busy, now, at, faults))
      modifies runs, artifacts
      ensures runs.Inv() && Matches(RecoverAll(st, ids[..i + 1], busy, now, at, faults))
      ensures report == RoundReport(ids[i], busy, faults(ids[i]))
    {
      RecoverNext(st, Stored(), ids, i, busy, now, at, faults);
      report := RecoverRun(ids[i], busy, now, at, faults(ids[i]));
    }

    /** The runs of one batch, in order. */
    method RecoverBatch(ids: seq<RunId>, now: real, at: Stamp, busy: set<RunId>, faults: RunId -> Faults)
      returns (reports: seq<Report>)
      requires runs.Inv() && FirstOfBacklog(runs.Tables(), now, BATCH, ids)
      modifies runs, artifacts
      ensures runs.Inv() && Matches(RecoverAll(old(Stored()), ids, busy, now, at, faults))
      ensures |reports| == |ids|
      ensures forall i :: 0 <= i < |ids| ==> reports[i] == RoundReport(ids[i], busy, faults(ids[i]))
    {
      reports := [];
      ghost var st := Stored();
      for i := 0 to |ids|
        invariant runs.Inv() && Matches(RecoverAll(st, ids[..i], busy, now, at, faults))
        invariant |reports| == i
        invariant forall j :: 0 <= j < i ==> reports[j] == RoundReport(ids[j], busy, faults(ids[j]))
      {
        var report := RecoverStep(st, ids, i, now, at, busy, faults);
        reports := reports + [report];
      }
      assert ids[..|ids|] == ids;
    }

    /** One bounded batch, oldest first. */
    method Recover(now: real, at: Stamp, busy: set<RunId>, faults: RunId -> Faults)
      returns (ids: seq<RunId>, reports: seq<Report>)
      requires runs.Inv()
      modifies runs, artifacts
      ensures runs.Inv()
      ensures FirstOfBacklog(old(runs.Tables()), now, BATCH, ids)
      ensures Matches(RecoverAll(old(Stored()), ids, busy, now, at, faults))
      ensures |reports| == |ids|
      ensures forall i :: 0 <= i < |ids| ==> reports[i] == RoundReport(ids[i], busy, faults(ids[i]))
    {
      ids := runs.Pending(now, BATCH);
      reports := RecoverBatch(ids, now, at, busy, faults);
    }

    method Reconcile(id: RunId, idle: bool, stillIdle: bool, now: real, at: Stamp, f: Faults) returns (r: Result<(), DbError>)
      requires runs.Inv()
      modifies runs, artifacts
      ensures runs.Inv()
      ensures Matches(ReconcileSpec(old(Stored()), id, idle, stillIdle, now, at, f).0)
      ensures r == ReconcileSpec(old(Stored()), id, idle, stillIdle, now, at, f).1
      ensures r.Ok? <==>
        && idle && stillIdle && Ends(old(runs.Tables()), id, now)
        && (Due(old(runs.Tables()), id, now) ==> Errors(f) == [])
      ensures r.Ok? ==> Frees(old(runs.locks), runs.locks, id) && !OwnsLock(runs.Tables(), id)
    {
      ReconcileSucceedsExactlyWhen(Stored(), id, idle, stillIdle, now, at, f);
      var report := Finalize(id, idle, now, at, f);
      if report.Err? { return Err(report.error); }
      if report.value.pending { return Err(RecoveryRequired); }
      if !stillIdle { return Err(RunActive); }
      r := runs.ReleaseResource(id);
    }
  }

  /** What `recover` reports for one run of the backlog. */
  function RoundReport(id: RunId, busy: set<RunId>, f: Faults): Report {
    if id in busy then Report(id, true, true, []) else Report(id, Errors(f) != [], false, Errors(f))
  }

  /** What it reports is what it left: pending exactly if the mark still stands, active exactly
      if the activity lock was held, and each error exactly if that operation raised. */
  lemma ReportIsTrue(st: Store, id: RunId, busy: set<RunId>, now: real, at: Stamp, f: Faults)
    requires Sound(st) && id in Backlog(st.db, now)
    ensures var (st', report) := (RecoverOne(st, id, busy, now, at, f), RoundReport(id, busy, f));
      && report.runId == id && id in st'.db.runs && (report.pending <==> st'.db.runs[id].pending)
      && (report.active <==> id in busy)
      && (ResultPending in report.errors <==> id !in busy && f.save)
      && (CleanupPending in report.errors <==> id !in busy && f.scrub != {})
  {
    RecoverOneSettles(st, id, busy, now, at, f);
  }

  ghost predicate SameContent(a: Store, b: Store) {
    a.db == b.db && forall k :: FilesIn(a.files, k) == FilesIn(b.files, k)
  }

  lemma AfterFilesByContent(a: map<RunId, Files>, b: map<RunId, Files>, run: Run, f: Faults, k: RunId)
    requires forall k :: FilesIn(a, k) == FilesIn(b, k)
    ensures FilesIn(AfterFiles(a, run, f), k) == FilesIn(AfterFiles(b, run, f), k)
  {
    assert FilesIn(a, k) == FilesIn(b, k);
  }

  lemma FinalizeByContent(a: Store, b: Store, id: RunId, idle: bool, now: real, at: Stamp, f: Faults)
    requires SameContent(a, b)
    ensures SameContent(FinalizeSpec(a, id, idle, now, at, f).0, FinalizeSpec(b, id, idle, now, at, f).0)
  {
    var a', b' := FinalizeSpec(a, id, idle, now, at, f).0, FinalizeSpec(b, id, idle, now, at, f).0;
    var got := GetTx(a.db, id, now, at).1;
    if idle && got.Ok? {
      forall k ensures FilesIn(a'.files, k) == FilesIn(b'.files, k) {
        AfterFilesByContent(a.files, b.files, got.value, f, k);
      }
    }
  }

  /** Recovery reads and writes files by content only. */
  lemma RecoverByContent(a: Store, b: Store, id: RunId, busy: set<RunId>, now: real, at: Stamp, f: Faults)
    requires SameContent(a, b)
    ensures SameContent(RecoverOne(a, id, busy, now, at, f), RecoverOne(b, id, busy, now, at, f))
  {
    var db := GetTx(a.db, id, now, at).0;
    FinalizeByContent(a.(db := db), b.(db := db), id, id !in busy, now, at, f);
  }

  /** One more element of the batch, from the state the service is actually in. */
  lemma RecoverNext(st: Store, actual: Store, ids: seq<RunId>, i: nat, busy: set<RunId>, now: real, at: Stamp, faults: RunId -> Faults)
    requires Sound(st) && FirstOfBacklog(st.db, now, BATCH, ids) && i < |ids|
    requires SameContent(actual, RecoverAll(st, ids[..i], busy, now, at, faults))
    ensures ids[i] in Backlog(actual.db, now)
    ensures SameContent(RecoverOne(actual, ids[i], busy, now, at, faults(ids[i])),
                        RecoverAll(st, ids[..i + 1], busy, now, at, faults))
  {
    var before := RecoverAll(st, ids[..i], busy, now, at, faults);
    RecoverAllSettles(st, ids[..i], busy, now, at, faults);
    assert ids[i] !in ids[..i];
    RoundGrows(st, ids, i, busy, now, at, faults);
    RecoverByContent(actual, before, ids[i], busy, now, at, faults(ids[i]));
  }
}
