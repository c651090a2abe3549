/** The whole system as one state machine: submitters, readers, workers with their guardians
    and children, recoverers, reconcilers and retention cleanup, over the run tables, the
    activity locks and the artifact files (execution_service.py, supervisor.py,
    recovery_service.py, run_guard.py). Every SQLite transaction, every file operation and
    every step of the launch handshake is one step; any participant can stop or be killed
    between two steps, and clock readings are arbitrary. */
module Protocol {
  import opened Prelude
  import opened Domain
  import opened RunStore
  import opened Artifacts
  import H = Handshake


  /** A worker's lease token is fresh, so it also names the worker. */
  type WorkerId = Owner
  type ActorId = nat

  datatype WorkerPc =
    | Launched
    | Holding
    | Checked
    | Owning
    | Concluded(result: Run)
    | Committed
    | Gone

  /** A worker process: `hold` is the shared activity lock around the whole job, `claimed`
      says that its claim once succeeded, `session` is its one call of `execute`. */
  datatype Worker = Worker(run: RunId, pc: WorkerPc, hold: bool, claimed: bool, session: H.Session)

  datatype ActorPc =
    // finalize, under the exclusive lock
    | Inspecting
    | Terminal(run: Run)
    | Saving(run: Run)
    | Scrubbing(run: Run, clean: bool, done: nat)
    // reconcile, under the exclusive lock
    | Releasing
    // cleanup: chosen before the lock is taken, then under it
    | Selected
    | Cleaning

  datatype Actor = Actor(run: RunId, pc: ActorPc)

  /** `keys`, `late`, `removed` and `reconciled` only record history: the resource key each
      run was created with, the runs some of whose inputs were written after they had become
      terminal, those whose files retention has taken, and those an operator reconciled. */
  datatype Sys = Sys(
    db: Db,
    workers: map<WorkerId, Worker>,
    actors: map<ActorId, Actor>,
    files: map<RunId, Files>,
    keys: map<RunId, Option<Key>>,
    late: set<RunId>,
    removed: set<RunId>,
    reconciled: set<RunId>)

  const INITIAL := Sys(EMPTY, map[], map[], map[], map[], {}, {}, {})

  function FilesOf(s: Sys, id: RunId): Files {
    FilesIn(s.files, id)
  }

  /** The run's activity file is locked in shared mode by this worker, or by a guardian or
      child that inherited its descriptor. */
  predicate HoldsActivity(w: Worker) {
    w.hold || w.session.activity != {}
  }

  predicate HasExclusive(a: Actor) {
    !a.pc.Selected?
  }

  predicate NobodyExclusive(s: Sys, id: RunId) {
    forall a :: a in s.actors && s.actors[a].run == id ==> !HasExclusive(s.actors[a])
  }

  predicate NobodyShared(s: Sys, id: RunId) {
    forall w :: w in s.workers && s.workers[w].run == id ==> !HoldsActivity(s.workers[w])
  }

  /** `flock(LOCK_EX | LOCK_NB)` succeeds. */
  predicate ExclusiveFree(s: Sys, id: RunId) {
    NobodyExclusive(s, id) && NobodyShared(s, id)
  }

  predicate IsTerminal(db: Db, id: RunId) {
    id in db.runs && !db.runs[id].data.state.Running?
  }

  predicate IsSettled(db: Db, id: RunId) {
    IsTerminal(db, id) && !db.runs[id].pending
  }

  /** Submission, reading and bookkeeping, by anyone. */
  datatype ClientStep =
    | Submit(run: Run, requestId: Option<string>, fingerprint: string, lockKey: Option<Key>, now: real)
    | PrepareInput(id: RunId, file: PrivateFile)
    | PrepareResult(run: Run)
    | StartFails(run: Run, beat: real, check: real)
    | ReadRun(id: RunId, now: real, at: Stamp)
    | RecordPid(id: RunId, pid: int)

  /** A worker, with the guardian and the child of its execution. */
  datatype WorkerStep =
    | StartWorker(id: RunId)
    | HoldActivity
    | CheckExpiry(now: real, at: Stamp)
    | TakeLease(beat: real, check: real)
    | Beat(beat: real, check: real)
    | Execute(move: H.Move)
    | WriteEvidence
    | Conclude(result: Run)
    | CommitResult(beat: real, check: real)
    | LetGo
    | WorkerDies

  /** Recovery, reconciliation and retention cleanup. */
  datatype ActorStep =
    | TryFinalize(id: RunId)
    | Inspect(now: real, at: Stamp)
    | AskPending
    | SaveResult(fails: bool)
    | ScrubNext(fails: bool)
    | SettleRun
    | TryReconcile(id: RunId)
    | Reconcile
    | SelectExpired(id: RunId)
    | TryClean
    | RemoveFiles
    | DeleteRun
    | ActorEnds

  datatype Step =
    | ByClient(client: ClientStep)
    | ByWorker(w: WorkerId, worker: WorkerStep)
    | ByActor(a: ActorId, actor: ActorStep)

  predicate CanClient(s: Sys, st: ClientStep) {
    match st
    // run ids are fresh, and a new record is active
    case Submit(run, _, _, _, _) => ConsistentState(run) && run.state.Running? && run.runId !in s.keys
    case PrepareInput(_, file) => file != RawResultFile
    case PrepareResult(run) => run.state.Running?
    case StartFails(run, _, _) => ConsistentState(run)
    case ReadRun(_, _, _) => true
    case RecordPid(_, _) => true
  }

  predicate CanWorker(s: Sys, w: WorkerId, st: WorkerStep) {
    if w !in s.workers then st.StartWorker? else
    var me := s.workers[w];
    match st
    case StartWorker(_) => false
    case HoldActivity => me.pc.Launched? && NobodyExclusive(s, me.run)
    case CheckExpiry(_, _) => me.pc.Holding?
    case TakeLease(_, _) => me.pc.Checked?
    case Beat(_, _) => me.pc.Owning?
    // the worker's own moves need the worker; opening the pipes also takes the lock again
    case Execute(m) =>
      && H.Can(me.session, m) && !m.KillWorker? && (H.ByWorker(m) ==> me.pc.Owning?)
      && (m.OpenPipes? ==> NobodyExclusive(s, me.run))
    case WriteEvidence => H.WorkflowAlive(me.session)
    // `_execute` ends before any launch, or after `execute` has returned or raised
    case Conclude(result) =>
      && me.pc.Owning? && (me.session.worker.NotLaunched? || me.session.worker.Left?)
      && ConsistentState(result) && !result.state.Running? && result.runId == me.run
    case CommitResult(_, _) => me.pc.Concluded?
    case LetGo => me.pc.Committed? || me.pc.Holding? || me.pc.Checked?
    case WorkerDies => !me.pc.Gone?
  }

  predicate CanActor(s: Sys, a: ActorId, st: ActorStep) {
    if a !in s.actors then
      match st
      case TryFinalize(id) => ExclusiveFree(s, id)
      case TryReconcile(id) => ExclusiveFree(s, id)
      case SelectExpired(id) => Removable(s.db, id)
      case _ => false
    else
      var me := s.actors[a];
      match st
      case Inspect(_, _) => me.pc.Inspecting?
      case AskPending => me.pc.Terminal?
      case SaveResult(_) => me.pc.Saving?
      case ScrubNext(_) => me.pc.Scrubbing? && me.pc.done < |SCRUB_ORDER|
      case SettleRun => me.pc.Scrubbing? && me.pc.clean && me.pc.done == |SCRUB_ORDER|
      case Reconcile => me.pc.Releasing?
      case TryClean => me.pc.Selected? && ExclusiveFree(s, me.run)
      case RemoveFiles => me.pc.Cleaning?
      case DeleteRun => me.pc.Cleaning?
      case ActorEnds => true
      case _ => false
  }

  predicate Can(s: Sys, st: Step) {
    match st
    case ByClient(c) => CanClient(s, c)
    case ByWorker(w, c) => CanWorker(s, w, c)
    case ByActor(a, c) => CanActor(s, a, c)
  }

  function WithDb(s: Sys, tx: Tx): Sys
    requires Valid(s.db)
  {
    s.(db := Apply(s.db, tx))
  }

  function WithWorker(s: Sys, w: WorkerId, worker: Worker): Sys {
    s.(workers := s.workers[w := worker])
  }

  function WithActor(s: Sys, a: ActorId, actor: Actor): Sys {
    s.(actors := s.actors[a := actor])
  }

  function WithoutActor(s: Sys, a: ActorId): Sys {
    s.(actors := s.actors - {a})
  }

  /** Writing a submitted file of a run that is no longer active is a late write. */
  function WithFiles(s: Sys, id: RunId, files: Files, submitted: bool): Sys {
    s.(files := s.files[id := files],
       late := if submitted && (id !in s.db.runs || IsTerminal(s.db, id)) then s.late + {id} else s.late)
  }

  /** A killed worker loses its own descriptors; guardian and child keep theirs. */
  function Killed(w: Worker): Worker {
    w.(pc := Gone, hold := false,
       session := if H.Can(w.session, H.KillWorker) then H.Do(w.session, H.KillWorker) else w.session)
  }

  function DoClient(s: Sys, st: ClientStep): Sys
    requires Valid(s.db) && CanClient(s, st)
  {
    match st
    case Submit(run, requestId, fingerprint, lockKey, now) =>
      var s' := WithDb(s, Create(run, requestId, fingerprint, lockKey, now));
      if run.runId in s'.db.runs then s'.(keys := s.keys[run.runId := lockKey]) else s'
    case PrepareInput(id, file) =>
      WithFiles(s, id, FilesOf(s, id).(private := FilesOf(s, id).private + {file}), true)
    case PrepareResult(run) => WithFiles(s, run.runId, FilesOf(s, run.runId).(result := Some(run)), true)
    case StartFails(run, beat, check) => WithDb(s, Commit(run, None, beat, check))
    case ReadRun(id, now, at) => WithDb(s, Tx.Get(id, now, at))
    case RecordPid(id, pid) => WithDb(s, Tx.SetPid(id, pid))
  }

  function DoWorker(s: Sys, w: WorkerId, st: WorkerStep): Sys
    requires Valid(s.db) && CanWorker(s, w, st)
  {
    if w !in s.workers then WithWorker(s, w, Worker(st.id, Launched, false, false, H.FRESH)) else
    var me := s.workers[w];
    match st
    case HoldActivity => WithWorker(s, w, me.(pc := Holding, hold := true))
    case CheckExpiry(now, at) =>
      var tx := Tx.Get(me.run, now, at);
      WithWorker(WithDb(s, tx), w, if Succeeds(s.db, tx) then me.(pc := Checked) else Killed(me))
    case TakeLease(beat, check) =>
      var tx := Tx.Claim(me.run, w, beat, check);
      WithWorker(WithDb(s, tx), w, if Succeeds(s.db, tx) then me.(pc := Owning, claimed := true) else Killed(me))
    case Beat(beat, check) => WithDb(s, Tx.Heartbeat(me.run, w, beat, check))
    case Execute(m) => WithWorker(s, w, me.(session := H.Do(me.session, m)))
    case WriteEvidence =>
      WithFiles(s, me.run, FilesOf(s, me.run).(private := FilesOf(s, me.run).private + {RawResultFile}), false)
    case Conclude(result) => WithWorker(s, w, me.(pc := Concluded(result)))
    case CommitResult(beat, check) =>
      WithWorker(WithDb(s, Commit(me.pc.result, Some(w), beat, check)), w, me.(pc := Committed))
    case LetGo => WithWorker(s, w, me.(pc := Gone, hold := false))
    case WorkerDies => WithWorker(s, w, Killed(me))
  }

  function DoActor(s: Sys, a: ActorId, st: ActorStep): Sys
    requires Valid(s.db) && CanActor(s, a, st)
  {
    match st
    case TryFinalize(id) => WithActor(s, a, Actor(id, Inspecting))
    case TryReconcile(id) => WithActor(s, a, Actor(id, Releasing))
    case SelectExpired(id) => WithActor(s, a, Actor(id, Selected))
    case Inspect(now, at) =>
      var id := s.actors[a].run;
      var s' := WithDb(s, Tx.Get(id, now, at));
      if IsTerminal(s'.db, id) then WithActor(s', a, Actor(id, Terminal(s'.db.runs[id].data))) else WithoutActor(s', a)
    case AskPending =>
      var id := s.actors[a].run;
      if id in s.db.runs && s.db.runs[id].pending then WithActor(s, a, Actor(id, Saving(s.actors[a].pc.run)))
      else WithoutActor(s, a)
    case SaveResult(fails) =>
      var id, run := s.actors[a].run, s.actors[a].pc.run;
      var s' := WithActor(s, a, Actor(id, Scrubbing(run, !fails, 0)));
      if fails then s' else WithFiles(s', id, FilesOf(s, id).(result := Some(run)), false)
    case ScrubNext(fails) =>
      var id, pc := s.actors[a].run, s.actors[a].pc;
      var s' := WithActor(s, a, Actor(id, Scrubbing(pc.run, pc.clean && !fails, pc.done + 1)));
      if fails then s'
      else WithFiles(s', id, FilesOf(s, id).(private := FilesOf(s, id).private - {SCRUB_ORDER[pc.done]}), false)
    case SettleRun =>
      WithoutActor(WithDb(s, Tx.Settle(s.actors[a].run, !Uncertain(s.actors[a].pc.run.effects))), a)
    case Reconcile =>
      var tx := ReleaseLock(s.actors[a].run);
      var s' := WithoutActor(WithDb(s, tx), a);
      if Succeeds(s.db, tx) then s'.(reconciled := s.reconciled + {s.actors[a].run}) else s'
    case TryClean => WithActor(s, a, Actor(s.actors[a].run, Cleaning))
    case RemoveFiles => s.(files := s.files - {s.actors[a].run}, removed := s.removed + {s.actors[a].run})
    case DeleteRun => WithoutActor(WithDb(s, Delete(s.actors[a].run)), a)
    case ActorEnds => WithoutActor(s, a)
  }

  function Do(s: Sys, st: Step): Sys
    requires Valid(s.db) && Can(s, st)
  {
    match st
    case ByClient(c) => DoClient(s, c)
    case ByWorker(w, c) => DoWorker(s, w, c)
    case ByActor(a, c) => DoActor(s, a, c)
  }

  // ----- the invariant

  /** Every run's key is known, and every lock belongs to a run created with that key. */
  ghost predicate LocksMatchKeys(s: Sys) {
    && (forall id :: id in s.db.runs ==> id in s.keys)
    && (forall k :: k in s.db.locks ==> s.db.locks[k] in s.keys && s.keys[s.db.locks[k]] == Some(k))
  }

  /** A run that is active, pending, or ended with uncertain effects nobody has reconciled. */
  predicate StillNeedsLock(row: Row, reconciled: bool) {
    row.data.state.Running? || row.pending || (Uncertain(row.data.effects) && !reconciled)
  }

  predicate OwnsItsKey(s: Sys, id: RunId) {
    id in s.keys && (s.keys[id].Some? ==> s.keys[id].value in s.db.locks && s.db.locks[s.keys[id].value] == id)
  }

  ghost predicate LocksRetained(s: Sys) {
    forall id :: id in s.db.runs && StillNeedsLock(s.db.runs[id], id in s.reconciled) ==> OwnsItsKey(s, id)
  }

  /** Exclusive means alone. */
  ghost predicate LockingIsSound(s: Sys) {
    && (forall a, b | a in s.actors && b in s.actors && s.actors[a].run == s.actors[b].run ::
          HasExclusive(s.actors[a]) && HasExclusive(s.actors[b]) ==> a == b)
    && (forall a, w | a in s.actors && w in s.workers && s.actors[a].run == s.workers[w].run ::
          !(HasExclusive(s.actors[a]) && HoldsActivity(s.workers[w])))
  }

  /** The run of a worker that has claimed it and is not finished with it: either its own,
      or already ended by someone else and waiting for finalization. */
  predicate Engaged(db: Db, id: RunId, w: WorkerId) {
    && id in db.runs
    && if db.runs[id].data.state.Running? then db.runs[id].owner == Some(w) else db.runs[id].pending
  }

  /** A worker whose claim succeeded and which still holds the activity lock, be it through
      the guardian or the child it left behind. */
  predicate ClaimIsActive(w: Worker) {
    w.claimed && HoldsActivity(w)
  }

  predicate BeforeClaim(pc: WorkerPc) {
    pc.Launched? || pc.Holding? || pc.Checked?
  }

  predicate WorkerShape(w: Worker) {
    && H.Good(w.session)
    && (w.hold <==> !w.pc.Launched? && !w.pc.Gone?)
    && (BeforeClaim(w.pc) ==> !w.claimed) && (w.pc.Owning? || w.pc.Concluded? || w.pc.Committed? ==> w.claimed)
    && (!w.claimed ==> w.session.worker.NotLaunched?)
    && (H.WorkerActive(w.session) ==> w.pc.Owning?)
    && (w.pc.Concluded? ==> ConsistentState(w.pc.result))
  }

  ghost predicate WorkersAreEngaged(s: Sys) {
    && (forall w :: w in s.workers ==> WorkerShape(s.workers[w]))
    && (forall w :: w in s.workers && ClaimIsActive(s.workers[w]) ==> Engaged(s.db, s.workers[w].run, w))
  }

  /** Of all the workers ever started for a run, at most one has an active claim. */
  ghost predicate OneWorkerPerRun(s: Sys) {
    forall v, w | v in s.workers && w in s.workers && s.workers[v].run == s.workers[w].run ::
      ClaimIsActive(s.workers[v]) && ClaimIsActive(s.workers[w]) ==> v == w
  }

  /** What a recovery participant has read is still so. */
  predicate ActorIsCurrent(s: Sys, a: Actor) {
    match a.pc
    case Inspecting => true
    case Terminal(run) => IsTerminal(s.db, a.run) && s.db.runs[a.run].data == run
    case Saving(run) => IsTerminal(s.db, a.run) && s.db.runs[a.run].data == run && s.db.runs[a.run].pending
    case Scrubbing(run, clean, done) =>
      && IsTerminal(s.db, a.run) && s.db.runs[a.run].data == run && s.db.runs[a.run].pending
      && done <= |SCRUB_ORDER|
      && (clean && a.run !in s.late ==>
            && FilesOf(s, a.run).result == Some(run)
            && forall i :: 0 <= i < done ==> SCRUB_ORDER[i] !in FilesOf(s, a.run).private)
    case Releasing => true
    case Selected => a.run in s.keys && (a.run in s.db.runs ==> Removable(s.db, a.run))
    case Cleaning => a.run in s.keys && (a.run in s.db.runs ==> Removable(s.db, a.run))
  }

  ghost predicate ActorsAreCurrent(s: Sys) {
    forall a :: a in s.actors ==> ActorIsCurrent(s, s.actors[a])
  }

  /** The result file repeats the authoritative record and no private input is left. */
  predicate Projected(s: Sys, id: RunId)
    requires id in s.db.runs
  {
    FilesOf(s, id).result == Some(s.db.runs[id].data) && FilesOf(s, id).private == {}
  }

  ghost predicate SettledIsProjected(s: Sys) {
    forall id :: IsSettled(s.db, id) && id !in s.late && id !in s.removed ==> Projected(s, id)
  }

  /** The part of the invariant that speaks of tables and files only. */
  ghost predicate RecordsAreSound(s: Sys) {
    Valid(s.db) && LocksMatchKeys(s) && LocksRetained(s) && SettledIsProjected(s)
  }

  ghost predicate Inv(s: Sys) {
    && RecordsAreSound(s) && LockingIsSound(s)
    && WorkersAreEngaged(s) && OneWorkerPerRun(s) && ActorsAreCurrent(s)
  }
}
