/** The run and lock tables and the transactions over them (run_repository.py). Each
    `BEGIN IMMEDIATE` block is one function from tables to tables;
    `RunRepository.SqliteRuns` performs the same transactions in place. */
module RunStore {
  import opened Prelude
  import opened Domain

  type Owner = nat
  type Key = nat

  /** Seconds a lease lives without a heartbeat. */
  const LEASE := 30.0

  datatype Row = Row(
    data: Run,
    owner: Option<Owner>,
    heartbeat: real,
    requestId: Option<string>,
    fingerprint: string,
    pending: bool,
    pid: Option<int>)

  /** `requests` is the UNIQUE index on `runs.request_id`. */
  datatype Db = Db(runs: map<RunId, Row>, requests: map<string, RunId>, locks: map<Key, RunId>)

  datatype DbError =
    | RequestConflict
    | Busy
    | RunNotFound
    | LeaseLost
    | BadTransition
    | RunActive
    | RecoveryRequired
    | StorageError

  const EMPTY := Db(map[], map[], map[])

  predicate ValidRow(id: RunId, row: Row) {
    && row.data.runId == id && ConsistentState(row.data)
    && (row.owner.Some? ==> row.data.state.Running?)
    && (row.pending ==> !row.data.state.Running?)
  }

  /** What every transaction keeps: legal records, owners only on active runs, the pending
      mark only on terminal ones, an exact request index and no lock without its run. */
  ghost predicate Valid(db: Db) {
    && (forall id :: id in db.runs ==> ValidRow(id, db.runs[id]))
    && (forall q :: q in db.requests ==> db.requests[q] in db.runs && db.runs[db.requests[q]].requestId == Some(q))
    && (forall id :: id in db.runs && db.runs[id].requestId.Some? ==>
          db.runs[id].requestId.value in db.requests && db.requests[db.runs[id].requestId.value] == id)
    && (forall k :: k in db.locks ==> db.locks[k] in db.runs)
  }

  predicate OwnsLock(db: Db, id: RunId) {
    id in db.locks.Values
  }

  function WithRow(db: Db, id: RunId, row: Row): Db {
    db.(runs := db.runs[id := row])
  }

  function WithoutLocks(locks: map<Key, RunId>, id: RunId): map<Key, RunId> {
    map k | k in locks && locks[k] != id :: locks[k]
  }

  function CreateTx(db: Db, run: Run, requestId: Option<string>, fingerprint: string, lockKey: Option<Key>, now: real)
    : (Db, Result<Run, DbError>)
    requires Valid(db)
  {
    if requestId.Some? && requestId.value != "" && requestId.value in db.requests then
      var row := db.runs[db.requests[requestId.value]];
      (db, if row.fingerprint != fingerprint then Err(RequestConflict) else Ok(row.data))
    else if lockKey.Some? && lockKey.value in db.locks then (db, Err(Busy))
    // A duplicate primary key or a repeated empty request id violates a constraint; the
    // transaction rolls back and takes the lock it has just inserted with it.
    else if run.runId in db.runs || (requestId.Some? && requestId.value in db.requests) then (db, Err(StorageError))
    else
      (Db(db.runs[run.runId := Row(run, None, now, requestId, fingerprint, false, None)],
          if requestId.Some? then db.requests[requestId.value := run.runId] else db.requests,
          if lockKey.Some? then db.locks[lockKey.value := run.runId] else db.locks),
       Ok(run))
  }

  /** The record an expired lease leaves behind. */
  function Lost(run: Run, at: Stamp): Run
    requires run.state.Running?
  {
    FailureEndingIsLegal(run, Errored, run.effects, at, "WORKER_LOST", LOST);
    Finish(run, FailureEnding(Errored, run.effects, at, "WORKER_LOST", LOST)).value
  }

  const LOST := "Worker heartbeat lost; recover local execution before reconciling external effects"

  predicate Expired(row: Row, now: real) {
    row.data.state.Running? && now - row.heartbeat > LEASE
  }

  function GetTx(db: Db, id: RunId, now: real, at: Stamp): (Db, Result<Run, DbError>) {
    if id !in db.runs then (db, Err(RunNotFound)) else
    var row := db.runs[id];
    if Expired(row, now) then
      var lost := Lost(row.data, at);
      (WithRow(db, id, row.(data := lost, owner := None, pending := true)), Ok(lost))
    else (db, Ok(row.data))
  }

  /** The conditional UPDATE of `claim`, `finish` and `heartbeat`. The clock is read twice:
      `beat` becomes the heartbeat and `check` bounds the age of the old one. */
  predicate HoldsLease(db: Db, id: RunId, owner: Option<Owner>, check: real) {
    && id in db.runs && db.runs[id].owner == owner && db.runs[id].data.state.Running?
    && db.runs[id].heartbeat >= check - LEASE
  }

  function ClaimTx(db: Db, id: RunId, owner: Owner, beat: real, check: real): (Db, Result<Run, DbError>) {
    if HoldsLease(db, id, None, check) then
      var row := db.runs[id].(owner := Some(owner), heartbeat := beat);
      (WithRow(db, id, row), Ok(row.data))
    else (db, Err(LeaseLost))
  }

  function FinishTx(db: Db, run: Run, owner: Option<Owner>, beat: real, check: real): (Db, Result<(), DbError>) {
    if run.state.Running? then (db, Err(BadTransition))
    else if run.runId !in db.runs then (db, Err(RunNotFound))
    else if !SameInvocation(run, db.runs[run.runId].data) then (db, Err(BadTransition))
    else if HoldsLease(db, run.runId, owner, check) then
      (WithRow(db, run.runId, db.runs[run.runId].(data := run, heartbeat := beat, owner := None, pending := true)), Ok(()))
    else (db, Err(LeaseLost))
  }

  function HeartbeatTx(db: Db, id: RunId, owner: Owner, beat: real, check: real): (Db, Result<(), DbError>) {
    if HoldsLease(db, id, Some(owner), check) then
      (WithRow(db, id, db.runs[id].(heartbeat := beat)), Ok(()))
    else (db, Err(LeaseLost))
  }

  function SetPidTx(db: Db, id: RunId, pid: int): Db {
    if id in db.runs then WithRow(db, id, db.runs[id].(pid := Some(pid))) else db
  }

  function SettledTx(db: Db, id: RunId, release: bool): (Db, Result<(), DbError>) {
    if id !in db.runs then (db, Err(RunNotFound))
    else if db.runs[id].data.state.Running? then (db, Err(RunActive))
    else
      (Db(db.runs[id := db.runs[id].(pending := false)], db.requests,
          if release then WithoutLocks(db.locks, id) else db.locks), Ok(()))
  }

  function ReleaseLockTx(db: Db, id: RunId): (Db, Result<(), DbError>) {
    if id !in db.runs then (db, Err(RunNotFound))
    else if db.runs[id].data.state.Running? || db.runs[id].pending then (db, Err(RecoveryRequired))
    else (db.(locks := WithoutLocks(db.locks, id)), Ok(()))
  }

  /** The rows retention may take: terminal, settled and holding no lock. */
  predicate Removable(db: Db, id: RunId) {
    id in db.runs && !db.runs[id].pending && !db.runs[id].data.state.Running? && !OwnsLock(db, id)
  }

  function DeleteTx(db: Db, id: RunId): Db {
    if Removable(db, id) then
      Db(db.runs - {id},
         if db.runs[id].requestId.Some? then db.requests - {db.runs[id].requestId.value} else db.requests,
         db.locks)
    else db
  }

  /** `pending`: settled work that is still owed, or a lease nobody has expired yet. */
  predicate NeedsRecovery(row: Row, now: real) {
    row.pending || (row.heartbeat < now - LEASE && row.data.state.Running?)
  }

  function Backlog(db: Db, now: real): set<RunId> {
    set id | id in db.runs && NeedsRecovery(db.runs[id], now)
  }

  /** `ORDER BY heartbeat, id`. */
  predicate Before(db: Db, a: RunId, b: RunId)
    requires a in db.runs && b in db.runs
  {
    db.runs[a].heartbeat < db.runs[b].heartbeat || (db.runs[a].heartbeat == db.runs[b].heartbeat && a < b)
  }

  /** `ids` is the first `limit` rows of the backlog in that order. */
  ghost predicate FirstOfBacklog(db: Db, now: real, limit: nat, ids: seq<RunId>) {
    && Distinct(ids) && |ids| == Min(limit, |Backlog(db, now)|)
    && (forall i :: 0 <= i < |ids| ==> ids[i] in Backlog(db, now))
    && (forall i, j :: 0 <= i < j < |ids| ==> Before(db, ids[i], ids[j]))
    && (forall i, b :: 0 <= i < |ids| && b in Backlog(db, now) && b !in ids ==> Before(db, ids[i], b))
  }

  // ----- one transaction at a time

  datatype Tx =
    | Create(run: Run, requestId: Option<string>, fingerprint: string, lockKey: Option<Key>, now: real)
    | Get(id: RunId, now: real, at: Stamp)
    | Claim(id: RunId, owner: Owner, beat: real, check: real)
    | Commit(run: Run, holder: Option<Owner>, beat: real, check: real)
    | Heartbeat(id: RunId, owner: Owner, beat: real, check: real)
    | SetPid(id: RunId, pid: int)
    | Settle(id: RunId, release: bool)
    | ReleaseLock(id: RunId)
    | Delete(id: RunId)
    // is_pending, pending and expired only read
    | Query

  /** `Run` values are built by the validator, so every record that arrives is legal. */
  predicate Admissible(tx: Tx) {
    (tx.Create? || tx.Commit?) ==> ConsistentState(tx.run)
  }

  function Apply(db: Db, tx: Tx): Db
    requires Valid(db)
  {
    match tx
    case Create(run, requestId, fingerprint, lockKey, now) => CreateTx(db, run, requestId, fingerprint, lockKey, now).0
    case Get(id, now, at) => GetTx(db, id, now, at).0
    case Claim(id, owner, beat, check) => ClaimTx(db, id, owner, beat, check).0
    case Commit(run, holder, beat, check) => FinishTx(db, run, holder, beat, check).0
    case Heartbeat(id, owner, beat, check) => HeartbeatTx(db, id, owner, beat, check).0
    case SetPid(id, pid) => SetPidTx(db, id, pid)
    case Settle(id, release) => SettledTx(db, id, release).0
    case ReleaseLock(id) => ReleaseLockTx(db, id).0
    case Delete(id) => DeleteTx(db, id)
    case Query => db
  }

  /** Did this transaction change the row it names in the way it was meant to? */
  predicate Succeeds(db: Db, tx: Tx)
    requires Valid(db)
  {
    match tx
    case Create(run, requestId, fingerprint, lockKey, now) => CreateTx(db, run, requestId, fingerprint, lockKey, now).1.Ok?
    case Get(id, now, at) => GetTx(db, id, now, at).1.Ok?
    case Claim(id, owner, beat, check) => ClaimTx(db, id, owner, beat, check).1.Ok?
    case Commit(run, holder, beat, check) => FinishTx(db, run, holder, beat, check).1.Ok?
    case Heartbeat(id, owner, beat, check) => HeartbeatTx(db, id, owner, beat, check).1.Ok?
    case SetPid(id, pid) => id in db.runs
    case Settle(id, release) => SettledTx(db, id, release).1.Ok?
    case ReleaseLock(id) => ReleaseLockTx(db, id).1.Ok?
    case Delete(id) => Removable(db, id)
    case Query => true
  }

  /** The run a transaction concerns; creation never touches a row that exists. */
  predicate Concerns(tx: Tx, id: RunId) {
    match tx
    case Create(_, _, _, _, _) => false
    case Commit(run, _, _, _) => run.runId == id
    case Get(r, _, _) => r == id
    case Claim(r, _, _, _) => r == id
    case Heartbeat(r, _, _, _) => r == id
    case SetPid(r, _) => r == id
    case Settle(r, _) => r == id
    case ReleaseLock(r) => r == id
    case Delete(r) => r == id
    case Query => false
  }

  predicate LeaseHeld(row: Row, owner: Option<Owner>, check: real) {
    row.owner == owner && row.data.state.Running? && row.heartbeat >= check - LEASE
  }

  /** The transactions that only a lease holder may perform. */
  predicate LeaseUse(tx: Tx) {
    tx.Claim? || tx.Heartbeat? || tx.Commit?
  }

  /** Whether the row lets such a transaction through. */
  predicate Granted(row: Row, tx: Tx)
    requires LeaseUse(tx)
  {
    match tx
    case Claim(_, _, _, check) => LeaseHeld(row, None, check)
    case Heartbeat(_, owner, _, check) => LeaseHeld(row, Some(owner), check)
    case Commit(run, holder, _, check) =>
      !run.state.Running? && SameInvocation(run, row.data) && LeaseHeld(row, holder, check)
  }

  /** What a transaction does to the row it concerns, read off that row alone. */
  function Updated(row: Row, tx: Tx): Row {
    match tx
    case Create(_, _, _, _, _) => row
    case Get(_, now, at) =>
      if Expired(row, now) then row.(data := Lost(row.data, at), owner := None, pending := true) else row
    case Claim(_, owner, beat, _) =>
      if Granted(row, tx) then row.(owner := Some(owner), heartbeat := beat) else row
    case Commit(run, _, beat, _) =>
      if Granted(row, tx) then row.(data := run, heartbeat := beat, owner := None, pending := true) else row
    case Heartbeat(_, _, beat, _) => if Granted(row, tx) then row.(heartbeat := beat) else row
    case SetPid(_, pid) => row.(pid := Some(pid))
    case Settle(_, _) => if row.data.state.Running? then row else row.(pending := false)
    case ReleaseLock(_) => row
    case Delete(_) => row
    case Query => row
  }

  /** A creation that inserts its run: nobody has the id, the request or the key yet. */
  predicate Inserts(db: Db, tx: Tx) {
    && tx.Create? && tx.run.runId !in db.runs
    && (tx.requestId.Some? ==> tx.requestId.value !in db.requests)
    && (tx.lockKey.Some? ==> tx.lockKey.value !in db.locks)
  }

  /** The new run is there, beating from the moment of creation, unowned and not pending, with its
      request, and with its key locked for it alone; everything else is as before. */
  ghost predicate IsCreated(db: Db, tx: Tx, db': Db)
    requires tx.Create?
  {
    var id := tx.run.runId;
    && db'.runs.Keys == db.runs.Keys + {id} && db'.runs[id].data == tx.run
    && db'.runs[id].heartbeat == tx.now && db'.runs[id].owner.None? && !db'.runs[id].pending && db'.runs[id].pid.None?
    && db'.runs[id].requestId == tx.requestId && db'.runs[id].fingerprint == tx.fingerprint
    && (forall b :: b in db.runs ==> db'.runs[b] == db.runs[b])
    && (forall k :: k in db'.locks && db'.locks[k] == id <==> tx.lockKey == Some(k))
    && (forall k :: k in db.locks ==> k in db'.locks && db'.locks[k] == db.locks[k])
    && (forall k :: k in db'.locks && db'.locks[k] != id ==> k in db.locks)
    && (forall q :: q in db'.requests && db'.requests[q] == id <==> tx.requestId == Some(q))
    && (forall q :: q in db.requests ==> q in db'.requests && db'.requests[q] == db.requests[q])
  }

  /** What creation leaves behind: such a run, exactly if it could be inserted, or nothing new. */
  lemma CreationLeaves(db: Db, tx: Tx)
    requires Valid(db) && tx.Create?
    ensures var (db', r) := CreateTx(db, tx.run, tx.requestId, tx.fingerprint, tx.lockKey, tx.now);
      if Inserts(db, tx) then r == Ok(tx.run) && IsCreated(db, tx, db') else db' == db
  {
    forall k | k in db.locks && db.locks[k] == tx.run.runId ensures tx.run.runId in db.runs {}
  }

  /** Some run carries the request id of this creation; an empty one is not looked up. */
  predicate Known(db: Db, tx: Tx)
    requires tx.Create?
  {
    tx.requestId.Some? && tx.requestId.value != "" && exists b :: b in db.runs && Carries(db, b, tx.requestId)
  }

  predicate Carries(db: Db, b: RunId, requestId: Option<string>)
    requires b in db.runs
  {
    db.runs[b].requestId == requestId
  }

  /** The same invocation is given back; another one under the same request is refused. */
  function Answer(row: Row, tx: Tx): Result<Run, DbError>
    requires tx.Create?
  {
    if row.fingerprint == tx.fingerprint then Ok(row.data) else Err(RequestConflict)
  }

  /** How creation answers: a known request with its own run or a conflict, a taken key with
      `Busy`, and otherwise with the run, unless the tables refuse it. */
  lemma CreationAnswers(db: Db, tx: Tx)
    requires Valid(db) && tx.Create?
    ensures var r := CreateTx(db, tx.run, tx.requestId, tx.fingerprint, tx.lockKey, tx.now).1;
      && (Known(db, tx) ==> exists b :: b in db.runs && Carries(db, b, tx.requestId) && r == Answer(db.runs[b], tx))
      && (!Known(db, tx) ==>
            && (r.Ok? <==> Inserts(db, tx))
            && (r == Err(Busy) <==> tx.lockKey.Some? && tx.lockKey.value in db.locks)
            && (r.Err? ==> r.error in {Busy, StorageError}))
  {
    if tx.requestId.Some? && tx.requestId.value in db.requests {
      assert Carries(db, db.requests[tx.requestId.value], tx.requestId);
    }
  }

  /** An active run of this owner whose last sign of life is at most 30 seconds old. */
  ghost predicate Alive(db: Db, id: RunId, owner: Option<Owner>, check: real) {
    && id in db.runs && db.runs[id].data.state.Running? && db.runs[id].owner == owner
    && check - db.runs[id].heartbeat <= 30.0
  }

  /** How the lease answers: a claim needs a live run without an owner, a heartbeat one of its
      own, and a commit besides that a terminal record of the same invocation; each says what
      was wrong, and a refusal changes nothing. */
  lemma LeaseAnswers(db: Db, tx: Tx)
    requires Valid(db) && LeaseUse(tx)
    ensures match tx
      case Claim(id, owner, beat, check) =>
        var (db', r) := ClaimTx(db, id, owner, beat, check);
        if Alive(db, id, None, check) then r == Ok(db.runs[id].data) else (db', r) == (db, Err(LeaseLost))
      case Heartbeat(id, owner, beat, check) =>
        var (db', r) := HeartbeatTx(db, id, owner, beat, check);
        if Alive(db, id, Some(owner), check) then r == Ok(()) else (db', r) == (db, Err(LeaseLost))
      case Commit(run, holder, beat, check) =>
        var (db', r) := FinishTx(db, run, holder, beat, check);
        var same := run.runId in db.runs && SameInvocation(run, db.runs[run.runId].data);
        && (r == Ok(()) <==> !run.state.Running? && same && Alive(db, run.runId, holder, check))
        && (r == Err(RunNotFound) <==> !run.state.Running? && run.runId !in db.runs)
        && (r == Err(BadTransition) <==> run.state.Running? || (run.runId in db.runs && !same))
        && (r.Err? ==> db' == db && r.error in {RunNotFound, BadTransition, LeaseLost})
  {
  }

  /** Reading a run: one that is active without a sign of life for more than 30 seconds is
      closed as lost, with the effects it declared, and waits for recovery; any other read
      changes nothing. */
  lemma ReadingLeaves(db: Db, id: RunId, now: real, at: Stamp)
    requires Valid(db) && id in db.runs
    ensures var (db', r) := GetTx(db, id, now, at);
      var (was, row) := (db.runs[id], db'.runs[id]);
      && r == Ok(row.data) && db' == WithRow(db, id, row)
      && if was.data.state.Running? && now - was.heartbeat > 30.0 then
           && row.data.state.Errored? && row.data.outcome.Inconclusive? && row.data.effects == was.data.effects
           && row.data.error == Some(Failure("WORKER_LOST", LOST)) && row.data.finishedAt == Some(at)
           && SameInvocation(row.data, was.data) && row.data.runId == id
           && row.owner.None? && row.pending && row.heartbeat == was.heartbeat && row.pid == was.pid
           && row.requestId == was.requestId && row.fingerprint == was.fingerprint
         else row == was
  {
  }

  /** `after` is `before` without the locks of run `id`. */
  ghost predicate Frees(before: map<Key, RunId>, after: map<Key, RunId>, id: RunId) {
    && (forall k :: k in after <==> k in before && before[k] != id)
    && (forall k :: k in after ==> after[k] == before[k])
  }

  /** Settling: it succeeds exactly on a terminal run, clears the mark and nothing else of the
      row, and frees the locks of that run, and no other lock, exactly when told to. */
  lemma SettlingLeaves(db: Db, id: RunId, release: bool)
    requires Valid(db)
    ensures var (db', r) := SettledTx(db, id, release);
      && (r.Ok? <==> id in db.runs && !db.runs[id].data.state.Running?)
      && (r == Err(RunNotFound) <==> id !in db.runs)
      && (r.Err? ==> db' == db && r.error in {RunNotFound, RunActive})
      && (r.Ok? ==> db'.runs.Keys == db.runs.Keys && !db'.runs[id].pending && db'.runs[id].data == db.runs[id].data)
      && (forall b :: b in db.runs ==> b in db'.runs && db'.runs[b] == db.runs[b].(pending := db'.runs[b].pending))
      && (forall b :: b in db.runs && b != id ==> db'.runs[b].pending == db.runs[b].pending)
      && db'.requests == db.requests
      && if r.Ok? && release then Frees(db.locks, db'.locks, id) else db'.locks == db.locks
  {
  }

  /** Freeing a resource succeeds exactly when the run exists, is terminal and is settled,
      whatever effects it had. Then no key is locked for it, and every other lock stays. */
  lemma FreeingLeaves(db: Db, id: RunId)
    requires Valid(db)
    ensures var (db', r) := ReleaseLockTx(db, id);
      && (r.Ok? <==> id in db.runs && !db.runs[id].data.state.Running? && !db.runs[id].pending)
      && (r == Err(RunNotFound) <==> id !in db.runs)
      && (r.Err? ==> db' == db && r.error in {RunNotFound, RecoveryRequired})
      && (r.Ok? ==> Frees(db.locks, db'.locks, id) && !OwnsLock(db', id))
      && db'.runs == db.runs && db'.requests == db.requests
  {
  }

  lemma CreateByRow(db: Db, run: Run, requestId: Option<string>, fingerprint: string, lockKey: Option<Key>, now: real, id: RunId)
    requires Valid(db) && id in db.runs
    ensures var db' := CreateTx(db, run, requestId, fingerprint, lockKey, now).0;
      id in db'.runs && db'.runs[id] == db.runs[id]
  {
  }

  lemma LeaseByRow(db: Db, tx: Tx, id: RunId)
    requires Valid(db) && id in db.runs && LeaseUse(tx)
    ensures id in Apply(db, tx).runs
    ensures Apply(db, tx).runs[id] == if Concerns(tx, id) then Updated(db.runs[id], tx) else db.runs[id]
    ensures Concerns(tx, id) ==> (Succeeds(db, tx) <==> Granted(db.runs[id], tx))
  {
    match tx
    case Claim(_, _, _, _) =>
    case Commit(_, _, _, _) =>
    case Heartbeat(_, _, _, _) =>
  }

  /** A transaction changes no row but the one it concerns, and that one only as told by the
      row itself; rows appear only by creation and disappear only by deletion. */
  lemma ApplyByRow(db: Db, tx: Tx, id: RunId)
    requires Valid(db) && id in db.runs
    ensures id !in Apply(db, tx).runs <==> tx == Delete(id) && Removable(db, id)
    ensures id in Apply(db, tx).runs ==>
              Apply(db, tx).runs[id] == if Concerns(tx, id) then Updated(db.runs[id], tx) else db.runs[id]
    ensures LeaseUse(tx) && Concerns(tx, id) ==> (Succeeds(db, tx) <==> Granted(db.runs[id], tx))
  {
    if LeaseUse(tx) {
      LeaseByRow(db, tx, id);
    } else if tx.Create? {
      CreateByRow(db, tx.run, tx.requestId, tx.fingerprint, tx.lockKey, tx.now, id);
    }
  }

  lemma RowUpdateKeepsValid(db: Db, id: RunId, row: Row)
    requires Valid(db) && id in db.runs && ValidRow(id, row) && row.requestId == db.runs[id].requestId
    ensures Valid(WithRow(db, id, row))
  {
  }

  lemma CreateKeepsValid(db: Db, run: Run, requestId: Option<string>, fingerprint: string, lockKey: Option<Key>, now: real)
    requires Valid(db) && ConsistentState(run)
    ensures Valid(CreateTx(db, run, requestId, fingerprint, lockKey, now).0)
  {
    var db' := CreateTx(db, run, requestId, fingerprint, lockKey, now).0;
    if db' != db {
      assert db'.runs.Keys == db.runs.Keys + {run.runId};
      forall id | id in db'.runs && db'.runs[id].requestId.Some?
        ensures db'.runs[id].requestId.value in db'.requests && db'.requests[db'.runs[id].requestId.value] == id
      {
        assert id in db.runs || id == run.runId;
      }
    }
  }

  lemma DeleteKeepsValid(db: Db, id: RunId)
    requires Valid(db)
    ensures Valid(DeleteTx(db, id))
  {
    var db' := DeleteTx(db, id);
    if Removable(db, id) {
      forall k | k in db'.locks ensures db'.locks[k] in db'.runs {
        assert db.locks[k] in db.locks.Values;
      }
    }
  }

  lemma SettleKeepsValid(db: Db, id: RunId, release: bool)
    requires Valid(db)
    ensures Valid(SettledTx(db, id, release).0)
  {
    if id in db.runs && !db.runs[id].data.state.Running? {
      var row := db.runs[id].(pending := false);
      assert ValidRow(id, row);
      RowUpdateKeepsValid(db, id, row);
    }
  }

  /** Every transaction keeps the tables valid. */
  lemma ApplyKeepsValid(db: Db, tx: Tx)
    requires Valid(db) && Admissible(tx)
    ensures Valid(Apply(db, tx))
  {
    match tx
    case Create(run, requestId, fingerprint, lockKey, now) =>
      CreateKeepsValid(db, run, requestId, fingerprint, lockKey, now);
    case Get(id, now, at) =>
      if id in db.runs && Expired(db.runs[id], now) {
        RowUpdateKeepsValid(db, id, GetTx(db, id, now, at).0.runs[id]);
      }
    case Claim(id, owner, beat, check) =>
      if HoldsLease(db, id, None, check) { RowUpdateKeepsValid(db, id, Apply(db, tx).runs[id]); }
    case Commit(run, holder, beat, check) =>
      if Succeeds(db, tx) { RowUpdateKeepsValid(db, run.runId, Apply(db, tx).runs[run.runId]); }
    case Heartbeat(id, owner, beat, check) =>
      if HoldsLease(db, id, Some(owner), check) { RowUpdateKeepsValid(db, id, Apply(db, tx).runs[id]); }
    case SetPid(id, pid) =>
      if id in db.runs { RowUpdateKeepsValid(db, id, Apply(db, tx).runs[id]); }
    case Settle(id, release) => SettleKeepsValid(db, id, release);
    case ReleaseLock(id) =>
    case Delete(id) => DeleteKeepsValid(db, id);
    case Query =>
  }

  /** Deletion never takes a running, pending or lock-owning run, and takes nothing else. */
  lemma DeletionIsSafe(db: Db, id: RunId)
    requires Valid(db)
    ensures var db' := DeleteTx(db, id);
      && db'.locks == db.locks
      && (forall r :: r in db.runs && r != id ==> r in db'.runs && db'.runs[r] == db.runs[r])
      && (id in db.runs && id !in db'.runs ==>
            !db.runs[id].data.state.Running? && !db.runs[id].pending
            && forall k :: k in db.locks ==> db.locks[k] != id)
      && ((id in db.runs && !db.runs[id].data.state.Running? && !db.runs[id].pending
           && forall k :: k in db.locks ==> db.locks[k] != id) ==>
          id !in db'.runs)
  {
    if OwnsLock(db, id) {
      var k :| k in db.locks && db.locks[k] == id;
    }
    forall k | k in db.locks && db.locks[k] == id ensures OwnsLock(db, id) {}
  }
}
