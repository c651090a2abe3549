/** Every step of the system keeps the invariant. */
module ProtocolInvariant {
  import opened Prelude
  import opened Domain
  import opened RunStore
  import opened Artifacts
  import opened Protocol
  import H = Handshake

  // ----- changes of the run tables that no participant can mind

  /** What reads, claims, heartbeats and commits do to a row: a terminal record stays, an
      active one keeps its owner or gets its first one, or it ends and is marked pending. */
  predicate LifeGoesOn(row: Row, row': Row) {
    if !row.data.state.Running? then !row'.data.state.Running? && row'.data == row.data && row'.pending == row.pending
    else if row'.data.state.Running? then row'.owner == row.owner || row.owner.None?
    else row'.pending
  }

  ghost predicate QuietChange(db: Db, db': Db) {
    && Valid(db') && db'.locks == db.locks && db'.runs.Keys == db.runs.Keys
    && forall id :: id in db.runs ==> LifeGoesOn(db.runs[id], db'.runs[id])
  }

  predicate Quiet(tx: Tx) {
    tx.Get? || tx.Claim? || tx.Commit? || tx.Heartbeat? || tx.SetPid?
  }

  lemma QuietRow(id: RunId, row: Row, tx: Tx)
    requires ValidRow(id, row) && Admissible(tx) && Quiet(tx)
    ensures LifeGoesOn(row, Updated(row, tx))
  {
  }

  lemma QuietTx(db: Db, tx: Tx)
    requires Valid(db) && Admissible(tx) && Quiet(tx)
    ensures QuietChange(db, Apply(db, tx))
  {
    var db' := Apply(db, tx);
    ApplyKeepsValid(db, tx);
    QuietFrame(db, tx);
    forall id | id in db.runs ensures id in db'.runs && LifeGoesOn(db.runs[id], db'.runs[id]) {
      ApplyByRow(db, tx, id);
      QuietRow(id, db.runs[id], tx);
    }
  }

  lemma QuietFrame(db: Db, tx: Tx)
    requires Valid(db) && Quiet(tx)
    ensures Apply(db, tx).locks == db.locks && Apply(db, tx).runs.Keys == db.runs.Keys
  {
  }

  lemma QuietActor(s: Sys, db': Db, a: Actor)
    requires QuietChange(s.db, db') && ActorIsCurrent(s, a)
    ensures ActorIsCurrent(s.(db := db'), a)
  {
  }

  lemma QuietRecords(s: Sys, db': Db)
    requires RecordsAreSound(s) && QuietChange(s.db, db')
    ensures RecordsAreSound(s.(db := db'))
  {
    var s' := s.(db := db');
    forall id | IsSettled(s'.db, id) && id !in s'.late && id !in s'.removed ensures Projected(s', id) {
      assert LifeGoesOn(s.db.runs[id], db'.runs[id]);
      assert IsSettled(s.db, id);
    }
    forall id | id in s'.db.runs && StillNeedsLock(s'.db.runs[id], id in s'.reconciled) ensures OwnsItsKey(s', id) {
      assert LifeGoesOn(s.db.runs[id], db'.runs[id]);
      assert OwnsItsKey(s, id);
    }
  }

  lemma QuietKeepsInv(s: Sys, db': Db)
    requires Inv(s) && QuietChange(s.db, db')
    ensures Inv(s.(db := db'))
  {
    var s' := s.(db := db');
    QuietRecords(s, db');
    forall a | a in s'.actors ensures ActorIsCurrent(s', s'.actors[a]) {
      QuietActor(s, db', s.actors[a]);
    }
    forall w | w in s'.workers && ClaimIsActive(s'.workers[w]) ensures Engaged(db', s'.workers[w].run, w) {
      assert Engaged(s.db, s.workers[w].run, w);
      assert LifeGoesOn(s.db.runs[s.workers[w].run], db'.runs[s.workers[w].run]);
    }
  }

  lemma QuietTxKeepsInv(s: Sys, tx: Tx)
    requires Inv(s) && Admissible(tx) && Quiet(tx)
    ensures Inv(WithDb(s, tx))
  {
    QuietTx(s.db, tx);
    QuietKeepsInv(s, Apply(s.db, tx));
  }

  // ----- changes of one participant

  /** Tables and files as they were. */
  predicate SameTables(s: Sys, s': Sys) {
    && s'.db == s.db && s'.files == s.files && s'.keys == s.keys
    && s'.late == s.late && s'.removed == s.removed && s'.reconciled == s.reconciled
  }

  lemma SameRecords(s: Sys, s': Sys)
    requires RecordsAreSound(s) && SameTables(s, s')
    ensures RecordsAreSound(s')
  {
    forall id | IsSettled(s'.db, id) && id !in s'.late && id !in s'.removed ensures Projected(s', id) {
      assert Projected(s, id);
    }
    forall id | id in s'.db.runs && StillNeedsLock(s'.db.runs[id], id in s'.reconciled) ensures OwnsItsKey(s', id) {
      assert OwnsItsKey(s, id);
    }
  }

  lemma SameActors(s: Sys, s': Sys)
    requires ActorsAreCurrent(s) && SameTables(s, s') && s'.actors == s.actors
    ensures ActorsAreCurrent(s')
  {
    forall a | a in s'.actors ensures ActorIsCurrent(s', s'.actors[a]) {
      assert ActorIsCurrent(s, s.actors[a]);
    }
  }

  /** A worker may change as long as it neither gains an active claim nor takes the activity
      lock against an exclusive holder. */
  lemma WorkerKeepsExclusion(s: Sys, w: WorkerId, me: Worker)
    requires Inv(s) && (w in s.workers ==> me.run == s.workers[w].run)
    requires HoldsActivity(me) ==> (w in s.workers && HoldsActivity(s.workers[w])) || NobodyExclusive(s, me.run)
    ensures var s' := WithWorker(s, w, me);
      forall a, v :: a in s'.actors && v in s'.workers && s'.actors[a].run == s'.workers[v].run ==>
        !(HasExclusive(s'.actors[a]) && HoldsActivity(s'.workers[v]))
  {
  }

  lemma WorkerChangeKeepsInv(s: Sys, w: WorkerId, me: Worker)
    requires Inv(s) && WorkerShape(me)
    requires w in s.workers ==> me.run == s.workers[w].run
    requires ClaimIsActive(me) ==> w in s.workers && ClaimIsActive(s.workers[w])
    requires HoldsActivity(me) ==> (w in s.workers && HoldsActivity(s.workers[w])) || NobodyExclusive(s, me.run)
    ensures Inv(WithWorker(s, w, me))
  {
    var s' := WithWorker(s, w, me);
    WorkerKeepsExclusion(s, w, me);
    SameActors(s, s');
    SameRecords(s, s');
  }

  /** A worker whose claim has just succeeded: nobody else's claim on that run is active. */
  lemma NewClaimKeepsInv(s: Sys, w: WorkerId, me: Worker)
    requires Inv(s) && WorkerShape(me) && w in s.workers && me.run == s.workers[w].run
    requires HoldsActivity(me) && HoldsActivity(s.workers[w]) && Engaged(s.db, me.run, w)
    requires forall v :: v in s.workers && v != w && s.workers[v].run == me.run ==> !ClaimIsActive(s.workers[v])
    ensures Inv(WithWorker(s, w, me))
  {
    var s' := WithWorker(s, w, me);
    SameActors(s, s');
    SameRecords(s, s');
  }

  lemma ActorChangeKeepsInv(s: Sys, a: ActorId, me: Actor)
    requires Inv(s) && ActorIsCurrent(s, me)
    requires HasExclusive(me) ==>
               (a in s.actors && s.actors[a].run == me.run && HasExclusive(s.actors[a])) || ExclusiveFree(s, me.run)
    ensures Inv(WithActor(s, a, me))
  {
    var s' := WithActor(s, a, me);
    forall b | b in s'.actors ensures ActorIsCurrent(s', s'.actors[b]) {
      assert b != a ==> ActorIsCurrent(s, s.actors[b]);
    }
    SameRecords(s, s');
  }

  lemma ActorEndKeepsInv(s: Sys, a: ActorId)
    requires Inv(s)
    ensures Inv(WithoutActor(s, a))
  {
    var s' := WithoutActor(s, a);
    forall b | b in s'.actors ensures ActorIsCurrent(s', s'.actors[b]) {
      assert ActorIsCurrent(s, s.actors[b]);
    }
    SameRecords(s, s');
  }

  /** Files of one run may change if that breaks neither a settled projection nor what the
      finalizer of that run has achieved so far. */
  lemma FileChangeKeepsInv(s: Sys, s': Sys, id: RunId)
    requires Inv(s) && s' == s.(files := s'.files, late := s'.late, removed := s'.removed)
    requires s.late <= s'.late <= s.late + {id} && s.removed <= s'.removed <= s.removed + {id}
    requires forall r :: r != id ==> FilesOf(s', r) == FilesOf(s, r)
    requires IsSettled(s.db, id) && id !in s'.late && id !in s'.removed ==> Projected(s', id)
    requires forall a :: a in s.actors && s.actors[a].run == id ==> ActorIsCurrent(s', s.actors[a])
    ensures Inv(s')
  {
    forall a | a in s'.actors ensures ActorIsCurrent(s', s'.actors[a]) {
      assert ActorIsCurrent(s, s.actors[a]);
    }
    forall r | IsSettled(s'.db, r) && r !in s'.late && r !in s'.removed ensures Projected(s', r) {
      if r != id { assert Projected(s, r); }
    }
    forall r | r in s'.db.runs && StillNeedsLock(s'.db.runs[r], r in s'.reconciled) ensures OwnsItsKey(s', r) {
      assert OwnsItsKey(s, r);
    }
  }

  // ----- submission

  /** The tables after a submission: as before, or with the new active run and its lock. */
  ghost predicate Submitted(db: Db, db': Db, run: Run, lockKey: Option<Key>) {
    && Valid(db') && run.runId !in db.runs
    && (run.runId !in db'.runs ==> db' == db)
    && (run.runId in db'.runs ==>
          && db'.runs == db.runs[run.runId := db'.runs[run.runId]] && db'.runs[run.runId].data.state.Running?
          && (lockKey.Some? ==> lockKey.value !in db.locks)
          && db'.locks == if lockKey.Some? then db.locks[lockKey.value := run.runId] else db.locks)
  }

  lemma SubmitTx(db: Db, run: Run, requestId: Option<string>, fingerprint: string, lockKey: Option<Key>, now: real)
    requires Valid(db) && ConsistentState(run) && run.state.Running? && run.runId !in db.runs
    ensures Submitted(db, CreateTx(db, run, requestId, fingerprint, lockKey, now).0, run, lockKey)
  {
    CreateKeepsValid(db, run, requestId, fingerprint, lockKey, now);
  }

  lemma SubmissionKeepsLocks(s: Sys, s': Sys, run: Run, lockKey: Option<Key>)
    requires Valid(s.db) && LocksMatchKeys(s) && LocksRetained(s) && run.runId !in s.keys
    requires Submitted(s.db, s'.db, run, lockKey) && run.runId in s'.db.runs
    requires s' == s.(db := s'.db, keys := s.keys[run.runId := lockKey])
    ensures LocksMatchKeys(s') && LocksRetained(s')
  {
    forall r | r in s'.db.runs && StillNeedsLock(s'.db.runs[r], r in s'.reconciled) ensures OwnsItsKey(s', r) {
      if r != run.runId {
        assert OwnsItsKey(s, r);
      }
    }
  }

  lemma SubmissionKeepsActors(s: Sys, s': Sys, run: Run, lockKey: Option<Key>)
    requires ActorsAreCurrent(s) && SettledIsProjected(s) && run.runId !in s.keys
    requires Submitted(s.db, s'.db, run, lockKey) && run.runId in s'.db.runs
    requires s' == s.(db := s'.db, keys := s.keys[run.runId := lockKey])
    ensures ActorsAreCurrent(s') && SettledIsProjected(s')
  {
    forall a | a in s'.actors ensures ActorIsCurrent(s', s'.actors[a]) {
      assert ActorIsCurrent(s, s.actors[a]);
      if s.actors[a].run in s.db.runs { NewLockIsNotTheirs(s, s', s.actors[a].run, run.runId, lockKey); }
    }
    forall r | IsSettled(s'.db, r) && r !in s'.late && r !in s'.removed ensures Projected(s', r) {
      assert Projected(s, r);
    }
  }

  lemma SubmissionKeepsInv(s: Sys, s': Sys, run: Run, lockKey: Option<Key>)
    requires Inv(s) && run.runId !in s.keys
    requires Submitted(s.db, s'.db, run, lockKey) && run.runId in s'.db.runs
    requires s' == s.(db := s'.db, keys := s.keys[run.runId := lockKey])
    ensures Inv(s')
  {
    SubmissionKeepsLocks(s, s', run, lockKey);
    SubmissionKeepsActors(s, s', run, lockKey);
    forall w | w in s'.workers && ClaimIsActive(s'.workers[w]) ensures Engaged(s'.db, s'.workers[w].run, w) {
      assert Engaged(s.db, s.workers[w].run, w);
    }
  }

  lemma SubmitKeepsInv(s: Sys, run: Run, requestId: Option<string>, fingerprint: string, lockKey: Option<Key>, now: real)
    requires Inv(s) && CanClient(s, Submit(run, requestId, fingerprint, lockKey, now))
    ensures Inv(DoClient(s, Submit(run, requestId, fingerprint, lockKey, now)))
  {
    var s' := DoClient(s, Submit(run, requestId, fingerprint, lockKey, now));
    SubmitTx(s.db, run, requestId, fingerprint, lockKey, now);
    if run.runId in s'.db.runs { SubmissionKeepsInv(s, s', run, lockKey); }
  }

  lemma NewLockIsNotTheirs(s: Sys, s': Sys, r: RunId, id: RunId, lockKey: Option<Key>)
    requires r != id
    requires s'.db.locks == if lockKey.Some? then s.db.locks[lockKey.value := id] else s.db.locks
    ensures OwnsLock(s'.db, r) ==> OwnsLock(s.db, r)
  {
    if OwnsLock(s'.db, r) {
      var k :| k in s'.db.locks && s'.db.locks[k] == r;
      assert s.db.locks[k] == r;
    }
  }

  lemma ClientKeepsInv(s: Sys, st: ClientStep)
    requires Inv(s) && CanClient(s, st)
    ensures Inv(DoClient(s, st))
  {
    match st
    case Submit(run, requestId, fingerprint, lockKey, now) =>
      SubmitKeepsInv(s, run, requestId, fingerprint, lockKey, now);
    case PrepareInput(id, file) => FileChangeKeepsInv(s, DoClient(s, st), id);
    case PrepareResult(run) => FileChangeKeepsInv(s, DoClient(s, st), run.runId);
    case StartFails(run, beat, check) => QuietTxKeepsInv(s, Commit(run, None, beat, check));
    case ReadRun(id, now, at) => QuietTxKeepsInv(s, Tx.Get(id, now, at));
    case RecordPid(id, pid) => QuietTxKeepsInv(s, Tx.SetPid(id, pid));
  }

  // ----- workers

  /** Nobody acquires the shared descriptor of an execution except from somebody who has it. */
  lemma ActivityIsInherited(e: H.Session, m: H.Move)
    requires H.Good(e) && H.Can(e, m) && !m.OpenPipes?
    ensures H.Do(e, m).activity != {} ==> e.activity != {}
  {
    if m.LaunchGuardian? { assert H.WorkerParty in e.activity; }
    if m.SpawnChild? { assert H.GuardianParty in e.activity; }
  }

  lemma ExecutionKeepsShape(w: Worker, m: H.Move)
    requires WorkerShape(w) && H.Can(w.session, m) && !m.KillWorker? && (H.ByWorker(m) ==> w.pc.Owning?)
    ensures WorkerShape(w.(session := H.Do(w.session, m)))
  {
    H.MovesKeepGood(w.session, m);
    WorkerPhaseFrame(w.session, m);
  }

  lemma WorkerPhaseFrame(e: H.Session, m: H.Move)
    requires H.Good(e) && H.Can(e, m)
    ensures !H.ByWorker(m) ==> H.Do(e, m).worker == e.worker
    ensures e.worker.NotLaunched? ==> m.OpenPipes?
  {
  }

  lemma KilledKeepsShape(w: Worker)
    requires WorkerShape(w)
    ensures WorkerShape(Killed(w)) && (HoldsActivity(Killed(w)) ==> HoldsActivity(w))
  {
    if H.Can(w.session, H.KillWorker) {
      H.MovesKeepGood(w.session, H.KillWorker);
      ActivityIsInherited(w.session, H.KillWorker);
    }
  }

  lemma ExecuteKeepsInv(s: Sys, w: WorkerId, m: H.Move)
    requires Inv(s) && CanWorker(s, w, Execute(m))
    ensures Inv(DoWorker(s, w, Execute(m)))
  {
    var me := s.workers[w];
    ExecutionKeepsShape(me, m);
    if !m.OpenPipes? { ActivityIsInherited(me.session, m); }
    WorkerChangeKeepsInv(s, w, me.(session := H.Do(me.session, m)));
  }

  lemma KillKeepsInv(s: Sys, w: WorkerId)
    requires Inv(s) && w in s.workers
    ensures Inv(WithWorker(s, w, Killed(s.workers[w])))
  {
    KilledKeepsShape(s.workers[w]);
    WorkerChangeKeepsInv(s, w, Killed(s.workers[w]));
  }

  lemma TakeLeaseKeepsInv(s: Sys, w: WorkerId, beat: real, check: real)
    requires Inv(s) && CanWorker(s, w, TakeLease(beat, check))
    ensures Inv(DoWorker(s, w, TakeLease(beat, check)))
  {
    var me := s.workers[w];
    var tx := Tx.Claim(me.run, w, beat, check);
    var s1 := WithDb(s, tx);
    QuietTxKeepsInv(s, tx);
    if Succeeds(s.db, tx) {
      ApplyByRow(s.db, tx, me.run);
      forall v | v in s.workers && v != w && s.workers[v].run == me.run ensures !ClaimIsActive(s.workers[v]) {
        assert ClaimIsActive(s.workers[v]) ==> Engaged(s.db, me.run, v);
      }
      NewClaimKeepsInv(s1, w, me.(pc := Owning, claimed := true));
    } else {
      KillKeepsInv(s1, w);
    }
  }

  lemma EvidenceKeepsInv(s: Sys, w: WorkerId)
    requires Inv(s) && CanWorker(s, w, WriteEvidence)
    ensures Inv(DoWorker(s, w, WriteEvidence))
  {
    var me := s.workers[w];
    assert ClaimIsActive(me) by { assert H.ChildParty in me.session.activity; }
    assert Engaged(s.db, me.run, w);
    FileChangeKeepsInv(s, DoWorker(s, w, WriteEvidence), me.run);
  }

  lemma CheckExpiryKeepsInv(s: Sys, w: WorkerId, now: real, at: Stamp)
    requires Inv(s) && CanWorker(s, w, CheckExpiry(now, at))
    ensures Inv(DoWorker(s, w, CheckExpiry(now, at)))
  {
    var me := s.workers[w];
    var tx := Tx.Get(me.run, now, at);
    QuietTxKeepsInv(s, tx);
    KilledKeepsShape(me);
    WorkerChangeKeepsInv(WithDb(s, tx), w, if Succeeds(s.db, tx) then me.(pc := Checked) else Killed(me));
  }

  lemma CommitKeepsInv(s: Sys, w: WorkerId, beat: real, check: real)
    requires Inv(s) && CanWorker(s, w, CommitResult(beat, check))
    ensures Inv(DoWorker(s, w, CommitResult(beat, check)))
  {
    var me := s.workers[w];
    var tx := Commit(me.pc.result, Some(w), beat, check);
    QuietTxKeepsInv(s, tx);
    WorkerChangeKeepsInv(WithDb(s, tx), w, me.(pc := Committed));
  }

  lemma StartKeepsInv(s: Sys, w: WorkerId, id: RunId)
    requires Inv(s) && CanWorker(s, w, StartWorker(id))
    ensures Inv(DoWorker(s, w, StartWorker(id)))
  {
    WorkerChangeKeepsInv(s, w, Worker(id, Launched, false, false, H.FRESH));
  }

  lemma HoldKeepsInv(s: Sys, w: WorkerId)
    requires Inv(s) && CanWorker(s, w, HoldActivity)
    ensures Inv(DoWorker(s, w, HoldActivity))
  {
    WorkerChangeKeepsInv(s, w, s.workers[w].(pc := Holding, hold := true));
  }

  lemma PhaseKeepsInv(s: Sys, w: WorkerId, st: WorkerStep)
    requires Inv(s) && CanWorker(s, w, st) && (st.Conclude? || st.LetGo?)
    ensures Inv(DoWorker(s, w, st))
  {
    if st.Conclude? { WorkerChangeKeepsInv(s, w, s.workers[w].(pc := Concluded(st.result))); }
    else { WorkerChangeKeepsInv(s, w, s.workers[w].(pc := Gone, hold := false)); }
  }

  lemma DeathKeepsInv(s: Sys, w: WorkerId)
    requires Inv(s) && CanWorker(s, w, WorkerDies)
    ensures Inv(DoWorker(s, w, WorkerDies))
  {
    KilledKeepsShape(s.workers[w]);
    WorkerChangeKeepsInv(s, w, Killed(s.workers[w]));
  }

  lemma WorkerKeepsInv(s: Sys, w: WorkerId, st: WorkerStep)
    requires Inv(s) && CanWorker(s, w, st)
    ensures Inv(DoWorker(s, w, st))
  {
    if st.StartWorker? { StartKeepsInv(s, w, st.id); }
    else if st.HoldActivity? { HoldKeepsInv(s, w); }
    else if st.CheckExpiry? { CheckExpiryKeepsInv(s, w, st.now, st.at); }
    else if st.TakeLease? { TakeLeaseKeepsInv(s, w, st.beat, st.check); }
    else if st.Beat? { QuietTxKeepsInv(s, Tx.Heartbeat(s.workers[w].run, w, st.beat, st.check)); }
    else if st.Execute? { ExecuteKeepsInv(s, w, st.move); }
    else if st.WriteEvidence? { EvidenceKeepsInv(s, w); }
    else if st.CommitResult? { CommitKeepsInv(s, w, st.beat, st.check); }
    else if st.WorkerDies? { DeathKeepsInv(s, w); }
    else { PhaseKeepsInv(s, w, st); }
  }

  // ----- recovery, reconciliation, cleanup

  /** A participant with the exclusive lock is alone with its run. */
  lemma ExclusiveIsAlone(s: Sys, a: ActorId)
    requires Inv(s) && a in s.actors && HasExclusive(s.actors[a])
    ensures forall b :: b in s.actors && b != a && s.actors[b].run == s.actors[a].run ==> s.actors[b].pc.Selected?
    ensures forall w :: w in s.workers && s.workers[w].run == s.actors[a].run ==> !HoldsActivity(s.workers[w])
  {
  }

  lemma LocksWithout(locks: map<Key, RunId>, id: RunId)
    ensures forall k :: k in WithoutLocks(locks, id) <==> k in locks && locks[k] != id
    ensures forall k :: k in WithoutLocks(locks, id) ==> WithoutLocks(locks, id)[k] == locks[k]
    ensures WithoutLocks(locks, id).Values <= locks.Values
  {
  }

  /** What settling and releasing do to the tables: one row loses its pending mark, or none
      changes, and the locks of that run may go. */
  ghost predicate LockChange(db: Db, db': Db, id: RunId) {
    && Valid(db') && db'.runs.Keys == db.runs.Keys
    && (forall r :: r in db.runs && r != id ==> db'.runs[r] == db.runs[r])
    && (db'.locks == db.locks || db'.locks == WithoutLocks(db.locks, id))
    && (id in db.runs && db.runs[id].data.state.Running? ==> db' == db)
    && (id in db.runs ==> db'.runs[id] == db.runs[id] || db'.runs[id] == db.runs[id].(pending := false))
  }

  lemma LockFrame(db: Db, tx: Tx)
    requires Valid(db) && (tx.Settle? || tx.ReleaseLock?)
    ensures Apply(db, tx).runs.Keys == db.runs.Keys
    ensures Apply(db, tx).locks == db.locks || Apply(db, tx).locks == WithoutLocks(db.locks, tx.id)
    ensures tx.id in db.runs && db.runs[tx.id].data.state.Running? ==> Apply(db, tx) == db
    ensures tx.Settle? && !tx.release ==> Apply(db, tx).locks == db.locks
    ensures tx.ReleaseLock? && !Succeeds(db, tx) ==> Apply(db, tx) == db
  {
  }

  lemma LockTx(db: Db, tx: Tx)
    requires Valid(db) && (tx.Settle? || tx.ReleaseLock?)
    ensures LockChange(db, Apply(db, tx), tx.id)
  {
    ApplyKeepsValid(db, tx);
    LockFrame(db, tx);
    forall r | r in db.runs
      ensures Apply(db, tx).runs[r] == if r == tx.id then Updated(db.runs[r], tx) else db.runs[r]
    {
      ApplyByRow(db, tx, r);
    }
  }

  lemma LockChangeKeepsLocks(s: Sys, db': Db, id: RunId, reconciled: set<RunId>)
    requires LocksMatchKeys(s) && LocksRetained(s) && LockChange(s.db, db', id) && s.reconciled <= reconciled
    requires id in db'.runs && StillNeedsLock(db'.runs[id], id in reconciled) ==> db'.locks == s.db.locks
    ensures LocksMatchKeys(s.(db := db', reconciled := reconciled))
    ensures LocksRetained(s.(db := db', reconciled := reconciled))
  {
    var s' := s.(db := db', reconciled := reconciled);
    LocksWithout(s.db.locks, id);
    forall r | r in s'.db.runs && StillNeedsLock(s'.db.runs[r], r in s'.reconciled) ensures OwnsItsKey(s', r) {
      assert StillNeedsLock(s.db.runs[r], r in s.reconciled);
      assert OwnsItsKey(s, r);
    }
  }

  lemma LockChangeKeepsFiles(s: Sys, db': Db, id: RunId, reconciled: set<RunId>)
    requires SettledIsProjected(s) && LockChange(s.db, db', id)
    requires IsSettled(db', id) && id !in s.late && id !in s.removed ==> Projected(s.(db := db'), id)
    ensures SettledIsProjected(s.(db := db', reconciled := reconciled))
  {
    var s' := s.(db := db', reconciled := reconciled);
    forall r | IsSettled(s'.db, r) && r !in s'.late && r !in s'.removed ensures Projected(s', r) {
      assert r == id ==> Projected(s.(db := db'), id);
      assert r != id ==> Projected(s, r);
    }
  }

  lemma LockChangeKeepsActors(s: Sys, db': Db, id: RunId, reconciled: set<RunId>)
    requires ActorsAreCurrent(s) && LockChange(s.db, db', id)
    requires forall a :: a in s.actors && s.actors[a].run == id ==> s.actors[a].pc.Selected?
    ensures ActorsAreCurrent(s.(db := db', reconciled := reconciled))
  {
    var s' := s.(db := db', reconciled := reconciled);
    LocksWithout(s.db.locks, id);
    forall a | a in s'.actors ensures ActorIsCurrent(s', s'.actors[a]) {
      assert ActorIsCurrent(s, s.actors[a]);
      assert OwnsLock(db', s.actors[a].run) ==> OwnsLock(s.db, s.actors[a].run);
    }
  }

  lemma LockChangeKeepsInv(s: Sys, db': Db, id: RunId, reconciled: set<RunId>)
    requires Inv(s) && LockChange(s.db, db', id) && s.reconciled <= reconciled
    requires forall a :: a in s.actors && s.actors[a].run == id ==> s.actors[a].pc.Selected?
    requires forall w :: w in s.workers && s.workers[w].run == id ==> !HoldsActivity(s.workers[w])
    requires id in db'.runs && StillNeedsLock(db'.runs[id], id in reconciled) ==> db'.locks == s.db.locks
    requires IsSettled(db', id) && id !in s.late && id !in s.removed ==> Projected(s.(db := db'), id)
    ensures Inv(s.(db := db', reconciled := reconciled))
  {
    var s' := s.(db := db', reconciled := reconciled);
    LockChangeKeepsLocks(s, db', id, reconciled);
    LockChangeKeepsActors(s, db', id, reconciled);
    LockChangeKeepsFiles(s, db', id, reconciled);
    forall w | w in s'.workers && ClaimIsActive(s'.workers[w]) ensures Engaged(s'.db, s'.workers[w].run, w) {
      assert Engaged(s.db, s.workers[w].run, w);
    }
  }

  /** The finalizer that settles a run has projected it, unless inputs came late. */
  lemma SettlingIsProjected(s: Sys, a: ActorId)
    requires Inv(s) && CanActor(s, a, SettleRun)
    ensures IsTerminal(s.db, s.actors[a].run) && s.db.runs[s.actors[a].run].data == s.actors[a].pc.run
    ensures s.actors[a].run !in s.late ==> Projected(s, s.actors[a].run)
  {
    assert ActorIsCurrent(s, s.actors[a]);
    if s.actors[a].run !in s.late { AllScrubbed(FilesOf(s, s.actors[a].run).private); }
  }

  /** Settling keeps the lock of a run whose effects are uncertain. */
  lemma SettleTxFacts(db: Db, id: RunId, run: Run)
    requires Valid(db) && IsTerminal(db, id) && db.runs[id].data == run
    ensures var db' := Apply(db, Tx.Settle(id, !Uncertain(run.effects)));
      && LockChange(db, db', id) && id in db'.runs && db'.runs[id].data == run
      && (StillNeedsLock(db'.runs[id], false) ==> db'.locks == db.locks)
  {
    var tx := Tx.Settle(id, !Uncertain(run.effects));
    LockTx(db, tx);
    LockFrame(db, tx);
    ApplyByRow(db, tx, id);
  }

  lemma SettleKeepsInv(s: Sys, a: ActorId)
    requires Inv(s) && CanActor(s, a, SettleRun)
    ensures Inv(DoActor(s, a, SettleRun))
  {
    var id, run := s.actors[a].run, s.actors[a].pc.run;
    var db' := Apply(s.db, Tx.Settle(id, !Uncertain(run.effects)));
    SettlingIsProjected(s, a);
    ExclusiveIsAlone(s, a);
    ActorEndKeepsInv(s, a);
    SettleTxFacts(s.db, id, run);
    LockChangeKeepsInv(WithoutActor(s, a), db', id, s.reconciled);
  }

  lemma ReconcileKeepsInv(s: Sys, a: ActorId)
    requires Inv(s) && CanActor(s, a, Reconcile)
    ensures Inv(DoActor(s, a, Reconcile))
  {
    var id := s.actors[a].run;
    var tx := ReleaseLock(id);
    ExclusiveIsAlone(s, a);
    ActorEndKeepsInv(s, a);
    LockTx(s.db, tx);
    LockFrame(s.db, tx);
    if IsSettled(s.db, id) && id !in s.late && id !in s.removed { assert Projected(s, id); }
    if id in s.db.runs { ApplyByRow(s.db, tx, id); }
    if Succeeds(s.db, tx) {
      assert IsSettled(s.db, id);
      LockChangeKeepsInv(WithoutActor(s, a), Apply(s.db, tx), id, s.reconciled + {id});
    }
  }

  /** The tables after a deletion: as before, or without one run that owns nothing. */
  ghost predicate Deleted(db: Db, db': Db, id: RunId) {
    && Valid(db') && db'.locks == db.locks
    && (db'.runs == db.runs || (db'.runs == db.runs - {id} && forall k :: k in db.locks ==> db.locks[k] != id))
  }

  lemma DeleteIsDeleted(db: Db, id: RunId)
    requires Valid(db)
    ensures Deleted(db, DeleteTx(db, id), id)
  {
    DeleteKeepsValid(db, id);
    DeletionIsSafe(db, id);
  }

  lemma DeletionKeepsRecords(s: Sys, db': Db, id: RunId)
    requires RecordsAreSound(s) && Deleted(s.db, db', id)
    ensures RecordsAreSound(s.(db := db'))
  {
    var s' := s.(db := db');
    forall r | IsSettled(s'.db, r) && r !in s'.late && r !in s'.removed ensures Projected(s', r) {
      assert Projected(s, r);
    }
    forall r | r in s'.db.runs && StillNeedsLock(s'.db.runs[r], r in s'.reconciled) ensures OwnsItsKey(s', r) {
      assert OwnsItsKey(s, r);
    }
  }

  lemma DeletionKeepsActors(s: Sys, db': Db, id: RunId)
    requires ActorsAreCurrent(s) && Deleted(s.db, db', id)
    requires forall a :: a in s.actors && s.actors[a].run == id ==> s.actors[a].pc.Selected?
    ensures ActorsAreCurrent(s.(db := db'))
  {
    var s' := s.(db := db');
    forall b | b in s'.actors ensures ActorIsCurrent(s', s'.actors[b]) {
      assert ActorIsCurrent(s, s.actors[b]);
    }
  }

  lemma DeletionKeepsInv(s: Sys, db': Db, id: RunId)
    requires Inv(s) && Deleted(s.db, db', id)
    requires forall a :: a in s.actors && s.actors[a].run == id ==> s.actors[a].pc.Selected?
    requires forall w :: w in s.workers && s.workers[w].run == id ==> !HoldsActivity(s.workers[w])
    ensures Inv(s.(db := db'))
  {
    var s' := s.(db := db');
    DeletionKeepsRecords(s, db', id);
    DeletionKeepsActors(s, db', id);
    forall w | w in s'.workers && ClaimIsActive(s'.workers[w]) ensures Engaged(s'.db, s'.workers[w].run, w) {
      assert Engaged(s.db, s.workers[w].run, w);
    }
  }

  lemma DeleteKeepsInv(s: Sys, a: ActorId)
    requires Inv(s) && CanActor(s, a, DeleteRun)
    ensures Inv(DoActor(s, a, DeleteRun))
  {
    ExclusiveIsAlone(s, a);
    ActorEndKeepsInv(s, a);
    DeleteIsDeleted(s.db, s.actors[a].run);
    DeletionKeepsInv(WithoutActor(s, a), DeleteTx(s.db, s.actors[a].run), s.actors[a].run);
  }

  lemma InspectKeepsInv(s: Sys, a: ActorId, now: real, at: Stamp)
    requires Inv(s) && CanActor(s, a, Inspect(now, at))
    ensures Inv(DoActor(s, a, Inspect(now, at)))
  {
    var id := s.actors[a].run;
    var s1 := WithDb(s, Tx.Get(id, now, at));
    QuietTxKeepsInv(s, Tx.Get(id, now, at));
    if IsTerminal(s1.db, id) { ActorChangeKeepsInv(s1, a, Actor(id, Terminal(s1.db.runs[id].data))); }
    else { ActorEndKeepsInv(s1, a); }
  }

  /** One file operation of the finalizer, which is alone with its run: what it knows about
      its files stays true, and nobody else relies on them. */
  ghost predicate FileStep(s: Sys, a: ActorId, s': Sys) {
    && a in s.actors && a in s'.actors && s'.actors[a].run == s.actors[a].run
    && HasExclusive(s.actors[a]) && ActorIsCurrent(s', s'.actors[a])
    && s' == WithActor(s, a, s'.actors[a]).(files := s'.files)
    && (forall r :: r != s.actors[a].run ==> FilesOf(s', r) == FilesOf(s, r))
    && !IsSettled(s.db, s.actors[a].run)
  }

  lemma SavingIsFileStep(s: Sys, a: ActorId, fails: bool)
    requires Inv(s) && CanActor(s, a, SaveResult(fails))
    ensures FileStep(s, a, DoActor(s, a, SaveResult(fails)))
  {
    assert ActorIsCurrent(s, s.actors[a]);
  }

  lemma ScrubbingIsFileStep(s: Sys, a: ActorId, fails: bool)
    requires Inv(s) && CanActor(s, a, ScrubNext(fails))
    ensures FileStep(s, a, DoActor(s, a, ScrubNext(fails)))
  {
    var id, pc := s.actors[a].run, s.actors[a].pc;
    var s' := DoActor(s, a, ScrubNext(fails));
    assert ActorIsCurrent(s, s.actors[a]);
    if pc.clean && !fails && id !in s.late {
      forall i | 0 <= i < pc.done + 1 ensures SCRUB_ORDER[i] !in FilesOf(s', id).private {}
    }
  }

  lemma FileStepOfOthers(s: Sys, a: ActorId, s': Sys)
    requires Inv(s) && FileStep(s, a, s')
    ensures Inv(WithoutActor(s, a).(files := s'.files))
  {
    ExclusiveIsAlone(s, a);
    ActorEndKeepsInv(s, a);
    var s1 := WithoutActor(s, a);
    var s2 := s1.(files := s'.files);
    assert forall r :: FilesOf(s2, r) == FilesOf(s', r) && FilesOf(s1, r) == FilesOf(s, r);
    FileChangeKeepsInv(s1, s2, s.actors[a].run);
  }

  lemma SameView(s: Sys, s': Sys, a: Actor)
    requires s'.db == s.db && s'.files == s.files && s'.late == s.late && s'.keys == s.keys
    ensures ActorIsCurrent(s, a) <==> ActorIsCurrent(s', a)
  {
  }

  lemma AloneAfterStep(s: Sys, a: ActorId, s': Sys)
    requires Inv(s) && FileStep(s, a, s')
    ensures ExclusiveFree(WithoutActor(s, a).(files := s'.files), s.actors[a].run)
  {
    ExclusiveIsAlone(s, a);
  }

  lemma RemovingKeepsInv(s: Sys, a: ActorId)
    requires Inv(s) && CanActor(s, a, RemoveFiles)
    ensures Inv(DoActor(s, a, RemoveFiles))
  {
    ExclusiveIsAlone(s, a);
    FileChangeKeepsInv(s, DoActor(s, a, RemoveFiles), s.actors[a].run);
  }

  lemma FileStepKeepsInv(s: Sys, a: ActorId, s': Sys)
    requires Inv(s) && FileStep(s, a, s')
    ensures Inv(s')
  {
    var s2 := WithoutActor(s, a).(files := s'.files);
    FileStepOfOthers(s, a, s');
    SameView(s', s2, s'.actors[a]);
    AloneAfterStep(s, a, s');
    ActorChangeKeepsInv(s2, a, s'.actors[a]);
    assert WithActor(s2, a, s'.actors[a]) == s';
  }

  lemma ActorKeepsInv(s: Sys, a: ActorId, st: ActorStep)
    requires Inv(s) && CanActor(s, a, st)
    ensures Inv(DoActor(s, a, st))
  {
    if a in s.actors { assert ActorIsCurrent(s, s.actors[a]); }
    match st
    case TryFinalize(id) => ActorChangeKeepsInv(s, a, Actor(id, Inspecting));
    case TryReconcile(id) => ActorChangeKeepsInv(s, a, Actor(id, Releasing));
    case SelectExpired(id) => ActorChangeKeepsInv(s, a, Actor(id, Selected));
    case Inspect(now, at) => InspectKeepsInv(s, a, now, at);
    case AskPending =>
      var id := s.actors[a].run;
      if id in s.db.runs && s.db.runs[id].pending { ActorChangeKeepsInv(s, a, Actor(id, Saving(s.actors[a].pc.run))); }
      else { ActorEndKeepsInv(s, a); }
    case SaveResult(fails) =>
      SavingIsFileStep(s, a, fails);
      FileStepKeepsInv(s, a, DoActor(s, a, st));
    case ScrubNext(fails) =>
      ScrubbingIsFileStep(s, a, fails);
      FileStepKeepsInv(s, a, DoActor(s, a, st));
    case SettleRun => SettleKeepsInv(s, a);
    case Reconcile => ReconcileKeepsInv(s, a);
    case TryClean => ActorChangeKeepsInv(s, a, Actor(s.actors[a].run, Cleaning));
    case RemoveFiles => RemovingKeepsInv(s, a);
    case DeleteRun => DeleteKeepsInv(s, a);
    case ActorEnds => ActorEndKeepsInv(s, a);
  }

  /** The invariant is inductive. */
  lemma StepKeepsInv(s: Sys, st: Step)
    requires Inv(s) && Can(s, st)
    ensures Inv(Do(s, st))
  {
    match st
    case ByClient(c) => ClientKeepsInv(s, c);
    case ByWorker(w, c) => WorkerKeepsInv(s, w, c);
    case ByActor(a, c) => ActorKeepsInv(s, a, c);
  }

  lemma InitialInv()
    ensures Inv(INITIAL)
  {
  }
}
