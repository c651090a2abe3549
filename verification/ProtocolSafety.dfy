/** What the invariant means: safety of every run of the whole system. */
module ProtocolSafety {
  import opened Prelude
  import opened Domain
  import opened RunStore
  import opened Artifacts
  import opened RunHistory
  import opened Protocol
  import opened ProtocolInvariant
  import H = Handshake

  /** `ss` are the states of one run of the system, `sts` the steps between them. */
  ghost predicate Behaviour(ss: seq<Sys>, sts: seq<Step>) {
    && |ss| == |sts| + 1 && ss[0] == INITIAL
    && forall i :: 0 <= i < |sts| ==> Takes(ss[i], sts[i], ss[i + 1])
  }

  ghost predicate Takes(s: Sys, st: Step, s': Sys) {
    Valid(s.db) && Can(s, st) && s' == Do(s, st)
  }

  /** The tables are valid in every reachable state, so `Takes` demands no more than `Can`. */
  lemma {:induction false} BehaviourInv(ss: seq<Sys>, sts: seq<Step>, i: nat)
    requires Behaviour(ss, sts) && i < |ss|
    ensures Inv(ss[i])
  {
    if i == 0 {
      InitialInv();
    } else {
      BehaviourInv(ss, sts, i - 1);
      TakesKeepsInv(ss[i - 1], sts[i - 1], ss[i]);
    }
  }

  lemma TakesKeepsInv(s: Sys, st: Step, s': Sys)
    requires Inv(s) && Takes(s, st, s')
    ensures Inv(s')
  {
    StepKeepsInv(s, st);
  }

  /** The workflow of worker `w` is running. */
  predicate Live(s: Sys, w: WorkerId) {
    w in s.workers && H.WorkflowAlive(s.workers[w].session)
  }

  predicate RunsUnderKey(s: Sys, w: WorkerId, key: Key) {
    w in s.workers && s.workers[w].run in s.keys && s.keys[s.workers[w].run] == Some(key)
  }

  lemma LiveIsClaimed(s: Sys, w: WorkerId)
    requires Inv(s) && Live(s, w)
    ensures ClaimIsActive(s.workers[w])
  {
    assert H.ChildParty in s.workers[w].session.activity;
  }

  lemma LiveKeepsLock(s: Sys, w: WorkerId)
    requires Inv(s) && Live(s, w)
    ensures s.workers[w].run in s.db.runs && !IsSettled(s.db, s.workers[w].run) && OwnsItsKey(s, s.workers[w].run)
  {
    LiveIsClaimed(s, w);
    assert Engaged(s.db, s.workers[w].run, w);
    assert OwnsItsKey(s, s.workers[w].run);
  }

  /** A live workflow's resource is locked for its run, whatever has happened to the run's
      record meanwhile: its lease may have expired, its worker and guardian may be dead,
      recoverers and reconcilers may be at work. The run is not settled either. */
  lemma LiveWorkflowKeepsItsResource(ss: seq<Sys>, sts: seq<Step>, i: nat, w: WorkerId, key: Key)
    requires Behaviour(ss, sts) && i < |ss|
    requires Live(ss[i], w) && RunsUnderKey(ss[i], w, key)
    ensures key in ss[i].db.locks && ss[i].db.locks[key] == ss[i].workers[w].run
    ensures ss[i].workers[w].run in ss[i].db.runs && !IsSettled(ss[i].db, ss[i].workers[w].run)
  {
    BehaviourInv(ss, sts, i);
    LiveKeepsLock(ss[i], w);
  }

  /** Mutual exclusion, end to end: two workflow processes under one resource key are one. */
  lemma OneWorkflowPerResource(ss: seq<Sys>, sts: seq<Step>, i: nat, v: WorkerId, w: WorkerId, key: Key)
    requires Behaviour(ss, sts) && i < |ss|
    requires Live(ss[i], v) && RunsUnderKey(ss[i], v, key)
    requires Live(ss[i], w) && RunsUnderKey(ss[i], w, key)
    ensures v == w
  {
    LiveWorkflowKeepsItsResource(ss, sts, i, v, key);
    LiveWorkflowKeepsItsResource(ss, sts, i, w, key);
    BehaviourInv(ss, sts, i);
    LiveIsClaimed(ss[i], v);
    LiveIsClaimed(ss[i], w);
  }

  /** The same without keys: no run ever has two workflow processes. */
  lemma OneWorkflowPerRun(ss: seq<Sys>, sts: seq<Step>, i: nat, v: WorkerId, w: WorkerId)
    requires Behaviour(ss, sts) && i < |ss| && Live(ss[i], v) && Live(ss[i], w)
    requires ss[i].workers[v].run == ss[i].workers[w].run
    ensures v == w
  {
    BehaviourInv(ss, sts, i);
    LiveIsClaimed(ss[i], v);
    LiveIsClaimed(ss[i], w);
  }

  /** Whoever holds the exclusive activity lock of a run finds no worker inside its guarded
      section, no guardian and no primary child of that run. */
  lemma ExclusiveMeansStopped(ss: seq<Sys>, sts: seq<Step>, i: nat, a: ActorId, w: WorkerId)
    requires Behaviour(ss, sts) && i < |ss|
    requires a in ss[i].actors && HasExclusive(ss[i].actors[a])
    requires w in ss[i].workers && ss[i].workers[w].run == ss[i].actors[a].run
    ensures !ss[i].workers[w].hold && !H.WorkerActive(ss[i].workers[w].session)
    ensures !H.GuardianAlive(ss[i].workers[w].session) && !H.ChildAlive(ss[i].workers[w].session)
  {
    BehaviourInv(ss, sts, i);
    ExclusiveIsAlone(ss[i], a);
    H.NoActivityMeansNobody(ss[i].workers[w].session);
  }

  /** Lock retention: a run created with a key owns it while it is active, while local
      finalization is pending, and after uncertain effects until it is reconciled. */
  lemma UnfinishedRunOwnsItsKey(ss: seq<Sys>, sts: seq<Step>, i: nat, id: RunId, key: Key)
    requires Behaviour(ss, sts) && i < |ss|
    requires id in ss[i].db.runs && id in ss[i].keys && ss[i].keys[id] == Some(key)
    requires StillNeedsLock(ss[i].db.runs[id], id in ss[i].reconciled)
    ensures key in ss[i].db.locks && ss[i].db.locks[key] == id
  {
    BehaviourInv(ss, sts, i);
    assert OwnsItsKey(ss[i], id);
  }

  /** So two runs created with one key are never unfinished together. */
  lemma OneUnfinishedRunPerKey(ss: seq<Sys>, sts: seq<Step>, i: nat, a: RunId, b: RunId, key: Key)
    requires Behaviour(ss, sts) && i < |ss|
    requires a in ss[i].db.runs && a in ss[i].keys && ss[i].keys[a] == Some(key)
    requires b in ss[i].db.runs && b in ss[i].keys && ss[i].keys[b] == Some(key)
    requires StillNeedsLock(ss[i].db.runs[a], a in ss[i].reconciled)
    requires StillNeedsLock(ss[i].db.runs[b], b in ss[i].reconciled)
    ensures a == b
  {
    UnfinishedRunOwnsItsKey(ss, sts, i, a, key);
    UnfinishedRunOwnsItsKey(ss, sts, i, b, key);
  }

  /** Every lock names a run that exists and was created with that key. */
  lemma LocksNameTheirRuns(ss: seq<Sys>, sts: seq<Step>, i: nat, key: Key)
    requires Behaviour(ss, sts) && i < |ss| && key in ss[i].db.locks
    ensures ss[i].db.locks[key] in ss[i].db.runs
    ensures ss[i].db.locks[key] in ss[i].keys && ss[i].keys[ss[i].db.locks[key]] == Some(key)
  {
    BehaviourInv(ss, sts, i);
  }

  /** Once a run is settled its result file is the authoritative record and none of its
      private inputs is left, if all of `prepare` came before the run ended and retention
      has not taken the files. */
  lemma SettledMeansProjected(ss: seq<Sys>, sts: seq<Step>, i: nat, id: RunId)
    requires Behaviour(ss, sts) && i < |ss|
    requires IsSettled(ss[i].db, id) && id !in ss[i].late && id !in ss[i].removed
    ensures FilesOf(ss[i], id).result == Some(ss[i].db.runs[id].data) && FilesOf(ss[i], id).private == {}
  {
    BehaviourInv(ss, sts, i);
    assert Projected(ss[i], id);
  }

  // ----- the tables of the system have the histories of module RunHistory

  function ClientTx(st: ClientStep): Tx {
    match st
    case Submit(run, requestId, fingerprint, lockKey, now) => Create(run, requestId, fingerprint, lockKey, now)
    case StartFails(run, beat, check) => Commit(run, None, beat, check)
    case ReadRun(id, now, at) => Tx.Get(id, now, at)
    case RecordPid(id, pid) => Tx.SetPid(id, pid)
    case _ => Query
  }

  function WorkerTx(s: Sys, w: WorkerId, st: WorkerStep): Tx
    requires CanWorker(s, w, st)
  {
    match st
    case CheckExpiry(now, at) => Tx.Get(s.workers[w].run, now, at)
    case TakeLease(beat, check) => Tx.Claim(s.workers[w].run, w, beat, check)
    case Beat(beat, check) => Tx.Heartbeat(s.workers[w].run, w, beat, check)
    case CommitResult(beat, check) => Commit(s.workers[w].pc.result, Some(w), beat, check)
    case _ => Query
  }

  function ActorTx(s: Sys, a: ActorId, st: ActorStep): Tx
    requires CanActor(s, a, st)
  {
    match st
    case Inspect(now, at) => Tx.Get(s.actors[a].run, now, at)
    case SettleRun => Tx.Settle(s.actors[a].run, !Uncertain(s.actors[a].pc.run.effects))
    case Reconcile => ReleaseLock(s.actors[a].run)
    case DeleteRun => Delete(s.actors[a].run)
    case _ => Query
  }

  /** The transaction a step performs on the run tables. */
  function TxOf(s: Sys, st: Step): Tx
    requires Can(s, st)
  {
    match st
    case ByClient(c) => ClientTx(c)
    case ByWorker(w, c) => WorkerTx(s, w, c)
    case ByActor(a, c) => ActorTx(s, a, c)
  }

  lemma ClientTxIsDone(s: Sys, st: ClientStep)
    requires Valid(s.db) && CanClient(s, st)
    ensures Admissible(ClientTx(st)) && DoClient(s, st).db == Apply(s.db, ClientTx(st))
  {
  }

  lemma WorkerTxIsDone(s: Sys, w: WorkerId, st: WorkerStep)
    requires Valid(s.db) && CanWorker(s, w, st) && (w in s.workers ==> WorkerShape(s.workers[w]))
    ensures Admissible(WorkerTx(s, w, st)) && DoWorker(s, w, st).db == Apply(s.db, WorkerTx(s, w, st))
  {
  }

  lemma ActorTxIsDone(s: Sys, a: ActorId, st: ActorStep)
    requires Valid(s.db) && CanActor(s, a, st)
    ensures Admissible(ActorTx(s, a, st)) && DoActor(s, a, st).db == Apply(s.db, ActorTx(s, a, st))
  {
    if ActorTx(s, a, st).Query? { ActorOnlyLooks(s, a, st); } else { ActorTxIsApplied(s, a, st); }
  }

  lemma ActorOnlyLooks(s: Sys, a: ActorId, st: ActorStep)
    requires Valid(s.db) && CanActor(s, a, st) && !st.Inspect? && !st.SettleRun? && !st.Reconcile? && !st.DeleteRun?
    ensures DoActor(s, a, st).db == s.db
  {
  }

  lemma ActorTxIsApplied(s: Sys, a: ActorId, st: ActorStep)
    requires Valid(s.db) && CanActor(s, a, st) && (st.Inspect? || st.SettleRun? || st.Reconcile? || st.DeleteRun?)
    ensures Admissible(ActorTx(s, a, st)) && DoActor(s, a, st).db == Apply(s.db, ActorTx(s, a, st))
  {
  }

  lemma TxIsDone(s: Sys, st: Step)
    requires Inv(s) && Can(s, st)
    ensures Admissible(TxOf(s, st)) && Do(s, st).db == Apply(s.db, TxOf(s, st))
  {
    match st
    case ByClient(c) => ClientTxIsDone(s, c);
    case ByWorker(w, c) => WorkerTxIsDone(s, w, c);
    case ByActor(a, c) => ActorTxIsDone(s, a, c);
  }

  lemma TableStep(s: Sys, st: Step, s': Sys)
    requires Inv(s) && Takes(s, st, s')
    ensures Admissible(TxOf(s, st)) && s'.db == Apply(s.db, TxOf(s, st))
  {
    TxIsDone(s, st);
  }

  /** Every behaviour of the system is, on its tables, a history of transactions; so all that
      is proved about histories, fencing above all, holds for the system. */
  lemma {:induction false} TableHistory(ss: seq<Sys>, sts: seq<Step>) returns (dbs: seq<Db>, txs: seq<Tx>)
    requires Behaviour(ss, sts)
    ensures History(dbs, txs) && |txs| == |sts|
    ensures forall i :: 0 <= i < |ss| ==> dbs[i] == ss[i].db
    ensures forall i :: 0 <= i < |sts| ==> Can(ss[i], sts[i]) && txs[i] == TxOf(ss[i], sts[i])
  {
    forall i | 0 <= i < |sts| ensures Can(ss[i], sts[i]) { assert Takes(ss[i], sts[i], ss[i + 1]); }
    dbs := seq(|ss|, i requires 0 <= i < |ss| => ss[i].db);
    txs := seq(|sts|, i requires 0 <= i < |sts| => TxOf(ss[i], sts[i]));
    forall i | 0 <= i < |dbs| ensures Valid(dbs[i]) { BehaviourInv(ss, sts, i); }
    forall i: nat | i < |txs| ensures Follows(dbs, txs, i) {
      BehaviourInv(ss, sts, i);
      assert Takes(ss[i], sts[i], ss[i + 1]);
      TableStep(ss[i], sts[i], ss[i + 1]);
    }
  }

  // ----- fencing in the system

  /** A step in which worker `w` gets the lease of run `id`. */
  predicate Claims(s: Sys, st: Step, id: RunId) {
    && st.ByWorker? && st.worker.TakeLease? && CanWorker(s, st.w, st.worker)
    && s.workers[st.w].run == id && HoldsLease(s.db, id, None, st.worker.check)
  }

  /** Run ids are used once: a deleted run is gone for good. */
  predicate Gone(s: Sys, id: RunId) {
    id in s.keys && id !in s.db.runs
  }

  lemma GoneStaysGone(s: Sys, st: Step, s': Sys, id: RunId)
    requires Inv(s) && Takes(s, st, s') && Gone(s, id)
    ensures Gone(s', id) && Inv(s')
  {
    TakesKeepsInv(s, st, s');
    TableStep(s, st, s');
    KeysGrow(s, st);
    GoneInTables(s.db, TxOf(s, st), id);
  }

  lemma GoneInTables(db: Db, tx: Tx, id: RunId)
    requires Valid(db) && id !in db.runs && !(tx.Create? && tx.run.runId == id)
    ensures id !in Apply(db, tx).runs
  {
  }

  lemma KeysGrow(s: Sys, st: Step)
    requires Valid(s.db) && Can(s, st)
    ensures s.keys.Keys <= Do(s, st).keys.Keys
  {
    match st
    case ByClient(c) =>
    case ByWorker(w, c) => WorkerKeys(s, w, c);
    case ByActor(a, c) => ActorKeys(s, a, c);
  }

  lemma WorkerKeys(s: Sys, w: WorkerId, st: WorkerStep)
    requires Valid(s.db) && CanWorker(s, w, st)
    ensures DoWorker(s, w, st).keys == s.keys
  {
  }

  lemma ActorKeys(s: Sys, a: ActorId, st: ActorStep)
    requires Valid(s.db) && CanActor(s, a, st)
    ensures DoActor(s, a, st).keys == s.keys
  {
  }

  lemma {:induction false} DeletedForGood(ss: seq<Sys>, sts: seq<Step>, id: RunId, i: nat, j: nat)
    requires Behaviour(ss, sts) && i <= j < |ss| && Gone(ss[i], id)
    ensures Gone(ss[j], id) && Inv(ss[j])
    decreases j
  {
    if i == j {
      BehaviourInv(ss, sts, j);
    } else {
      DeletedForGood(ss, sts, id, i, j - 1);
      GoneStaysGone(ss[j - 1], sts[j - 1], ss[j], id);
    }
  }

  lemma {:induction false} KnownStaysKnown(ss: seq<Sys>, sts: seq<Step>, id: RunId, i: nat, j: nat)
    requires Behaviour(ss, sts) && i <= j < |ss| && id in ss[i].keys
    ensures id in ss[j].keys
    decreases j
  {
    if i < j {
      KnownStaysKnown(ss, sts, id, i, j - 1);
      KnownStep(ss[j - 1], sts[j - 1], ss[j], id);
    }
  }

  lemma KnownStep(s: Sys, st: Step, s': Sys, id: RunId)
    requires Takes(s, st, s') && id in s.keys
    ensures id in s'.keys
  {
    KeysGrow(s, st);
  }

  /** Over any behaviour at most one claim of a run ever succeeds. */
  lemma OneClaimEver(ss: seq<Sys>, sts: seq<Step>, id: RunId, i: nat, j: nat)
    requires Behaviour(ss, sts) && i < |sts| && j < |sts|
    requires Claims(ss[i], sts[i], id) && Claims(ss[j], sts[j], id)
    ensures i == j
  {
    NoSecondClaim(ss, sts, id, i, j);
    NoSecondClaim(ss, sts, id, j, i);
  }

  lemma NoSecondClaim(ss: seq<Sys>, sts: seq<Step>, id: RunId, i: nat, j: nat)
    requires Behaviour(ss, sts) && i < |sts| && j < |sts|
    requires Claims(ss[i], sts[i], id) && Claims(ss[j], sts[j], id)
    ensures i >= j
  {
    if i < j {
      var dbs, txs := TableHistory(ss, sts);
      assert txs[i] == TxOf(ss[i], sts[i]) && txs[j] == TxOf(ss[j], sts[j]);
      ClaimedOnce(dbs, txs, id, i, j);
      var k :| i < k < j && id !in dbs[k].runs;
      KnownWhenClaimed(ss, sts, id, i);
      KnownStaysKnown(ss, sts, id, i, k);
      DeletedForGood(ss, sts, id, k, j);
      assert false;
    }
  }

  lemma KnownWhenClaimed(ss: seq<Sys>, sts: seq<Step>, id: RunId, i: nat)
    requires Behaviour(ss, sts) && i < |sts| && Claims(ss[i], sts[i], id)
    ensures id in ss[i].keys
  {
    BehaviourInv(ss, sts, i);
  }

  // ----- a submitter that is late

  /** A settled record does not change until it is deleted. */
  lemma SettledStays(s: Sys, st: Step, id: RunId)
    requires Inv(s) && Can(s, st) && IsSettled(s.db, id) && id in Do(s, st).db.runs
    ensures IsSettled(Do(s, st).db, id) && Do(s, st).db.runs[id].data == s.db.runs[id].data
  {
    TxIsDone(s, st);
    SettledInTables(s.db, TxOf(s, st), id);
  }

  lemma SettledInTables(db: Db, tx: Tx, id: RunId)
    requires Valid(db) && Admissible(tx) && IsSettled(db, id) && id in Apply(db, tx).runs
    ensures IsSettled(Apply(db, tx), id) && Apply(db, tx).runs[id].data == db.runs[id].data
  {
    ApplyByRow(db, tx, id);
  }

  predicate RemovesFilesOf(s: Sys, st: Step, id: RunId) {
    st.ByActor? && st.actor.RemoveFiles? && st.a in s.actors && s.actors[st.a].run == id
  }

  lemma LeftoverClientStep(s: Sys, st: ClientStep, id: RunId, f: PrivateFile)
    requires Valid(s.db) && CanClient(s, st) && f in FilesOf(s, id).private
    ensures f in FilesOf(DoClient(s, st), id).private
  {
  }

  lemma LeftoverWorkerStep(s: Sys, w: WorkerId, st: WorkerStep, id: RunId, f: PrivateFile)
    requires Valid(s.db) && CanWorker(s, w, st) && f in FilesOf(s, id).private
    ensures f in FilesOf(DoWorker(s, w, st), id).private
  {
  }

  lemma LeftoverActorStep(s: Sys, a: ActorId, st: ActorStep, id: RunId, f: PrivateFile)
    requires Valid(s.db) && CanActor(s, a, st) && f in FilesOf(s, id).private
    requires a in s.actors ==> ActorIsCurrent(s, s.actors[a])
    requires IsSettled(s.db, id) && !(st.RemoveFiles? && s.actors[a].run == id)
    ensures f in FilesOf(DoActor(s, a, st), id).private
  {
  }

  /** A settled run with a private input beside it. */
  predicate Leftover(s: Sys, id: RunId, f: PrivateFile) {
    IsSettled(s.db, id) && f in FilesOf(s, id).private
  }

  lemma LeftoverStep(s: Sys, st: Step, s': Sys, id: RunId, f: PrivateFile)
    requires Inv(s) && Takes(s, st, s') && Leftover(s, id, f)
    requires !RemovesFilesOf(s, st, id) && id in s'.db.runs
    ensures Leftover(s', id, f)
  {
    SettledStays(s, st, id);
    match st
    case ByClient(c) => LeftoverClientStep(s, c, id, f);
    case ByWorker(w, c) => LeftoverWorkerStep(s, w, c, id, f);
    case ByActor(a, c) =>
      assert a in s.actors ==> ActorIsCurrent(s, s.actors[a]);
      LeftoverActorStep(s, a, c, id, f);
  }

  /** Retention does not touch the run in this step. */
  ghost predicate Retained(s: Sys, st: Step, s': Sys, id: RunId) {
    id in s'.db.runs && !RemovesFilesOf(s, st, id)
  }

  /** A private input that is there once the run is settled is never removed by recovery: it
      stays until retention takes the run. */
  lemma {:induction false} LateInputStays(ss: seq<Sys>, sts: seq<Step>, i: nat, j: nat, id: RunId, f: PrivateFile)
    requires Behaviour(ss, sts) && i <= j < |ss| && Leftover(ss[i], id, f)
    requires forall k :: i <= k < j ==> Retained(ss[k], sts[k], ss[k + 1], id)
    ensures Leftover(ss[j], id, f)
    decreases j
  {
    if i < j {
      LateInputStays(ss, sts, i, j - 1, id, f);
      BehaviourInv(ss, sts, j - 1);
      assert Retained(ss[j - 1], sts[j - 1], ss[j], id);
      LeftoverStep(ss[j - 1], sts[j - 1], ss[j], id, f);
    }
  }

  /** And the only way it can be there is a write that came after the run had ended. */
  lemma LeftoverWasLate(ss: seq<Sys>, sts: seq<Step>, i: nat, id: RunId, f: PrivateFile)
    requires Behaviour(ss, sts) && i < |ss| && Leftover(ss[i], id, f)
    ensures id in ss[i].late || id in ss[i].removed
  {
    BehaviourInv(ss, sts, i);
    assert id !in ss[i].late && id !in ss[i].removed ==> Projected(ss[i], id);
  }

  predicate WritesInput(st: Step, id: RunId, f: PrivateFile) {
    st == ByClient(PrepareInput(id, f))
  }

  lemma NewByClient(s: Sys, st: ClientStep, id: RunId, f: PrivateFile)
    requires Valid(s.db) && CanClient(s, st)
    ensures f in FilesOf(DoClient(s, st), id).private <==> f in FilesOf(s, id).private || st == PrepareInput(id, f)
  {
  }

  /** The workflow of a settled run is dead, so it writes nothing more. */
  lemma NewByWorker(s: Sys, w: WorkerId, st: WorkerStep, id: RunId, f: PrivateFile)
    requires Inv(s) && CanWorker(s, w, st) && IsSettled(s.db, id)
    ensures f in FilesOf(DoWorker(s, w, st), id).private <==> f in FilesOf(s, id).private
  {
    if st.WriteEvidence? && w in s.workers { LiveKeepsLock(s, w); }
  }

  lemma NewByActor(s: Sys, a: ActorId, st: ActorStep, id: RunId, f: PrivateFile)
    requires Valid(s.db) && CanActor(s, a, st)
    ensures f in FilesOf(DoActor(s, a, st), id).private ==> f in FilesOf(s, id).private
  {
  }

  lemma LeftoverByStep(s: Sys, st: Step, s': Sys, id: RunId, f: PrivateFile)
    requires Inv(s) && Takes(s, st, s') && IsSettled(s.db, id) && Retained(s, st, s', id)
    ensures IsSettled(s'.db, id)
    ensures Leftover(s', id, f) <==> Leftover(s, id, f) || WritesInput(st, id, f)
  {
    SettledStays(s, st, id);
    if Leftover(s, id, f) {
      LeftoverStep(s, st, s', id, f);
    } else {
      match st
      case ByClient(c) => NewByClient(s, c, id, f);
      case ByWorker(w, c) => NewByWorker(s, w, c, id, f);
      case ByActor(a, c) => NewByActor(s, a, c, id, f);
    }
  }

  /** From a settled state on, and untouched by retention, a private input lies beside the run
      exactly if it lay there in that state or the submitter has written it since. */
  lemma {:induction false} LeftoverExactlyWhen(ss: seq<Sys>, sts: seq<Step>, i: nat, j: nat, id: RunId, f: PrivateFile)
    requires Behaviour(ss, sts) && i <= j < |ss| && IsSettled(ss[i].db, id)
    requires forall k :: i <= k < j ==> Retained(ss[k], sts[k], ss[k + 1], id)
    ensures IsSettled(ss[j].db, id)
    ensures Leftover(ss[j], id, f) <==> Leftover(ss[i], id, f) || exists k :: i <= k < j && WritesInput(sts[k], id, f)
    decreases j
  {
    if i < j {
      LeftoverExactlyWhen(ss, sts, i, j - 1, id, f);
      BehaviourInv(ss, sts, j - 1);
      assert Retained(ss[j - 1], sts[j - 1], ss[j], id);
      LeftoverByStep(ss[j - 1], sts[j - 1], ss[j], id, f);
    }
  }

  lemma Extend(ss: seq<Sys>, sts: seq<Step>, st: Step) returns (ss': seq<Sys>, sts': seq<Step>)
    requires Behaviour(ss, sts) && Valid(ss[|sts|].db) && Can(ss[|sts|], st)
    ensures Behaviour(ss', sts') && |sts'| == |sts| + 1 && ss'[|sts'|] == Do(ss[|sts|], st)
    ensures Valid(ss'[|sts'|].db)
  {
    ss', sts' := ss + [Do(ss[|sts|], st)], sts + [st];
    forall i | 0 <= i < |sts'| ensures Takes(ss'[i], sts'[i], ss'[i + 1]) {
      if i < |sts| { assert Takes(ss[i], sts[i], ss[i + 1]); }
    }
    BehaviourInv(ss', sts', |sts'|);
  }
}
