/** Particular behaviours: the finalizer's small steps add up to what the recovery service does, a
    submitter that stalls defeats the removal of inputs and the repair of the result, and a
    workflow lives on under its resource after its lease has expired. */
module ProtocolScenarios {
  import opened Prelude
  import opened Domain
  import opened RunStore
  import opened Artifacts
  import opened Recovery
  import opened Protocol
  import opened ProtocolSafety
  import H = Handshake

  /** Everything but tables and files is as it was. */
  predicate OnlyStored(s: Sys, s': Sys) {
    && s'.workers == s.workers && s'.actors == s.actors && s'.keys == s.keys
    && s'.late == s.late && s'.removed == s.removed && s'.reconciled == s.reconciled
  }

  lemma StartFinalizing(ss: seq<Sys>, sts: seq<Step>, a: ActorId, id: RunId, now: real, at: Stamp)
    returns (ss': seq<Sys>, sts': seq<Step>)
    requires Behaviour(ss, sts) && Valid(ss[|sts|].db)
    requires a !in ss[|sts|].actors && ExclusiveFree(ss[|sts|], id) && Owes(ss[|sts|].db, id)
    ensures Behaviour(ss', sts') && Valid(ss'[|sts'|].db)
    ensures ss'[|sts'|] == WithActor(ss[|sts|], a, Actor(id, Saving(ss[|sts|].db.runs[id].data)))
  {
    ss', sts' := Extend(ss, sts, ByActor(a, TryFinalize(id)));
    ss', sts' := Extend(ss', sts', ByActor(a, Inspect(now, at)));
    ss', sts' := Extend(ss', sts', ByActor(a, AskPending));
  }

  lemma ScrubEverything(ss: seq<Sys>, sts: seq<Step>, a: ActorId, id: RunId, run: Run)
    returns (ss': seq<Sys>, sts': seq<Step>)
    requires Behaviour(ss, sts) && Valid(ss[|sts|].db)
    requires a in ss[|sts|].actors && ss[|sts|].actors[a] == Actor(id, Scrubbing(run, true, 0))
    ensures Behaviour(ss', sts') && Valid(ss'[|sts'|].db)
    ensures ss'[|sts'|] == WithActor(ss[|sts|], a, Actor(id, Scrubbing(run, true, 3))).(files := ss'[|sts'|].files)
    ensures forall k :: k != id ==> FilesOf(ss'[|sts'|], k) == FilesOf(ss[|sts|], k)
    ensures FilesOf(ss'[|sts'|], id) == FilesOf(ss[|sts|], id).(private := {})
  {
    ss', sts' := Extend(ss, sts, ByActor(a, ScrubNext(false)));
    ss', sts' := Extend(ss', sts', ByActor(a, ScrubNext(false)));
    ss', sts' := Extend(ss', sts', ByActor(a, ScrubNext(false)));
    AllScrubbed(FilesOf(ss'[|sts'|], id).private);
  }

  lemma FinishFinalizing(ss: seq<Sys>, sts: seq<Step>, a: ActorId, id: RunId, run: Run)
    returns (ss': seq<Sys>, sts': seq<Step>)
    requires Behaviour(ss, sts) && Valid(ss[|sts|].db)
    requires a in ss[|sts|].actors && ss[|sts|].actors[a] == Actor(id, Saving(run))
    ensures Behaviour(ss', sts') && OnlyStored(WithoutActor(ss[|sts|], a), ss'[|sts'|])
    ensures ss'[|sts'|].db == SettledTx(ss[|sts|].db, id, !Uncertain(run.effects)).0
    ensures forall k :: k != id ==> FilesOf(ss'[|sts'|], k) == FilesOf(ss[|sts|], k)
    ensures FilesOf(ss'[|sts'|], id) == Files(Some(run), {})
  {
    ss', sts' := Extend(ss, sts, ByActor(a, SaveResult(false)));
    var s1 := ss'[|sts'|];
    assert forall k :: k != id ==> FilesOf(s1, k) == FilesOf(ss[|sts|], k);
    ss', sts' := ScrubEverything(ss', sts', a, id, run);
    var s2 := ss'[|sts'|];
    ss', sts' := Extend(ss', sts', ByActor(a, SettleRun));
    forall k | k != id ensures FilesOf(ss'[|sts'|], k) == FilesOf(ss[|sts|], k) {
      assert FilesOf(s2, k) == FilesOf(s1, k);
    }
  }

  lemma SpecOfOwing(db: Db, files: map<RunId, Files>, id: RunId, now: real, at: Stamp)
    requires Valid(db) && Owes(db, id)
    ensures var st' := FinalizeSpec(Store(db, files), id, true, now, at, NO_FAULTS).0;
      && st'.db == SettledTx(db, id, !Uncertain(db.runs[id].data.effects)).0
      && (forall k :: k != id ==> FilesIn(st'.files, k) == FilesIn(files, k))
      && FilesIn(st'.files, id) == Files(Some(db.runs[id].data), {})
  {
    FinalizeCompletes(Store(db, files), id, now, at);
  }

  /** An uninterrupted finalizer takes the system from any reachable state where the run owes
      finalization and is idle to the state that `RecoveryService.Finalize` specifies. */
  lemma FinalizerRefinesService(ss: seq<Sys>, sts: seq<Step>, a: ActorId, id: RunId, now: real, at: Stamp)
    returns (ss': seq<Sys>, sts': seq<Step>)
    requires Behaviour(ss, sts)
    requires a !in ss[|sts|].actors && ExclusiveFree(ss[|sts|], id) && Owes(ss[|sts|].db, id)
    ensures Behaviour(ss', sts') && OnlyStored(ss[|sts|], ss'[|sts'|])
    ensures SameContent(Store(ss'[|sts'|].db, ss'[|sts'|].files),
                        FinalizeSpec(Store(ss[|sts|].db, ss[|sts|].files), id, true, now, at, NO_FAULTS).0)
  {
    BehaviourInv(ss, sts, |sts|);
    var s := ss[|sts|];
    ss', sts' := StartFinalizing(ss, sts, a, id, now, at);
    var s1 := ss'[|sts'|];
    assert WithoutActor(s1, a).actors == s.actors;
    ss', sts' := FinishFinalizing(ss', sts', a, id, s.db.runs[id].data);
    SpecOfOwing(s.db, s.files, id, now, at);
    var s', spec := ss'[|sts'|], FinalizeSpec(Store(s.db, s.files), id, true, now, at, NO_FAULTS).0;
    forall k ensures FilesIn(s'.files, k) == FilesIn(spec.files, k) {
      assert k != id ==> FilesOf(s', k) == FilesOf(s1, k);
    }
  }

  /** "Settled means that the stored result is the record and no private input is left" fails when
      the submitter stalls for more than a lease between creating the run and `prepare`: a reader
      expires the run, a recoverer settles it, and then job, inputs and the result of the still
      active run are written. Finalizing again repairs nothing, and nothing but retention removes
      the inputs (`ProtocolSafety.LateInputStays`). */
  lemma LatePrepareStays(run: Run, at: Stamp) returns (ss: seq<Sys>, sts: seq<Step>)
    requires ConsistentState(run) && run.state.Running?
    ensures Behaviour(ss, sts) && IsSettled(ss[|sts|].db, run.runId) && run.runId in ss[|sts|].late
    ensures FilesOf(ss[|sts|], run.runId) == Files(Some(run), {JobFile, InputsFile})
    ensures ss[|sts|].db.runs[run.runId].data != run
    ensures forall idle, now, f :: var st := Store(ss[|sts|].db, ss[|sts|].files);
      FinalizeSpec(st, run.runId, idle, now, at, f).0 == st
  {
    var id := run.runId;
    ss, sts := StalledAndSettled(run, at);
    ss, sts := Extend(ss, sts, ByClient(PrepareInput(id, JobFile)));
    ss, sts := Extend(ss, sts, ByClient(PrepareInput(id, InputsFile)));
    ss, sts := Extend(ss, sts, ByClient(PrepareResult(run)));
    var s := ss[|sts|];
    assert GetTx(s.db, id, 0.0, at).0 == s.db;
  }

  lemma StalledAndSettled(run: Run, at: Stamp) returns (ss: seq<Sys>, sts: seq<Step>)
    requires ConsistentState(run) && run.state.Running?
    ensures Behaviour(ss, sts) && Valid(ss[|sts|].db) && IsSettled(ss[|sts|].db, run.runId)
    ensures FilesOf(ss[|sts|], run.runId).private == {}
  {
    var id := run.runId;
    InitialIsBehaviour();
    ss, sts := Extend([INITIAL], [], ByClient(Submit(run, None, "", None, 0.0)));
    ss, sts := Extend(ss, sts, ByClient(ReadRun(id, 31.0, at)));
    var s := ss[|sts|];
    assert Owes(s.db, id) && s.actors == map[] && s.workers == map[];
    ss, sts := FinalizerRefinesService(ss, sts, 0, id, 31.0, at);
    FinalizeCompletes(Store(s.db, s.files), id, 31.0, at);
    BehaviourInv(ss, sts, |sts|);
    assert IsSettled(ss[|sts|].db, id);
  }

  // ----- a workflow outlives its lease

  /** The moves of an execution, made by a worker of the system. */
  lemma {:induction false} Launch(ss: seq<Sys>, sts: seq<Step>, w: WorkerId, hs: seq<H.Session>, ms: seq<H.Move>)
    returns (ss': seq<Sys>, sts': seq<Step>)
    requires Behaviour(ss, sts) && Valid(ss[|sts|].db) && ss[|sts|].actors == map[]
    requires w in ss[|sts|].workers && ss[|sts|].workers[w].pc.Owning? && ss[|sts|].workers[w].session == H.FRESH
    requires H.Execution(hs, ms) && H.Unkilled(ms)
    ensures Behaviour(ss', sts') && Valid(ss'[|sts'|].db)
    ensures ss'[|sts'|] == WithWorker(ss[|sts|], w, ss[|sts|].workers[w].(session := hs[|ms|]))
    decreases |ms|
  {
    if ms == [] {
      ss', sts' := ss, sts;
    } else {
      var n := |ms| - 1;
      forall i | 0 <= i < n ensures H.Moves(hs[..n + 1][i], ms[..n][i], hs[..n + 1][i + 1]) {
        assert H.Moves(hs[i], ms[i], hs[i + 1]);
      }
      ss', sts' := Launch(ss, sts, w, hs[..n + 1], ms[..n]);
      assert H.Moves(hs[n], ms[n], hs[n + 1]);
      ss', sts' := Extend(ss', sts', ByWorker(w, Execute(ms[n])));
    }
  }

  /** What is stored of a run that has just been submitted under a key. */
  predicate StoredUnder(s: Sys, run: Run, key: Key) {
    && s.keys == map[run.runId := Some(key)] && s.actors == map[]
    && run.runId in s.db.runs && s.db.runs[run.runId].data == run && s.db.runs[run.runId].heartbeat == 0.0
    && s.db.locks == map[key := run.runId] && s.db.requests == map[]
  }

  lemma Submitted(run: Run, key: Key) returns (ss: seq<Sys>, sts: seq<Step>)
    requires ConsistentState(run) && run.state.Running?
    ensures Behaviour(ss, sts) && Valid(ss[|sts|].db) && StoredUnder(ss[|sts|], run, key)
    ensures ss[|sts|].workers == map[] && ss[|sts|].db.runs[run.runId].owner == None
  {
    InitialIsBehaviour();
    ss, sts := Extend([INITIAL], [], ByClient(Submit(run, None, "", Some(key), 0.0)));
  }

  lemma Held(run: Run, key: Key) returns (ss: seq<Sys>, sts: seq<Step>)
    requires ConsistentState(run) && run.state.Running?
    ensures Behaviour(ss, sts) && Valid(ss[|sts|].db) && StoredUnder(ss[|sts|], run, key)
    ensures ss[|sts|].db.runs[run.runId].owner == None
    ensures ss[|sts|].workers == map[0 := Worker(run.runId, Holding, true, false, H.FRESH)]
  {
    ss, sts := Submitted(run, key);
    ss, sts := Extend(ss, sts, ByWorker(0, StartWorker(run.runId)));
    ss, sts := Extend(ss, sts, ByWorker(0, HoldActivity));
  }

  lemma Claimed(run: Run, key: Key, at: Stamp) returns (ss: seq<Sys>, sts: seq<Step>)
    requires ConsistentState(run) && run.state.Running?
    ensures Behaviour(ss, sts) && Valid(ss[|sts|].db) && StoredUnder(ss[|sts|], run, key)
    ensures ss[|sts|].db.runs[run.runId].owner == Some(0)
    ensures ss[|sts|].workers == map[0 := Worker(run.runId, Owning, true, true, H.FRESH)]
  {
    ss, sts := Held(run, key);
    ss, sts := Extend(ss, sts, ByWorker(0, CheckExpiry(0.0, at)));
    ss, sts := Extend(ss, sts, ByWorker(0, TakeLease(0.0, 0.0)));
  }

  /** Mutual exclusion is not vacuous where it is hard: a workflow runs on under its resource after
      its lease has expired and its record is terminal. Nobody can begin to finalize or reconcile
      the run, and another submission under the key is refused. */
  lemma LiveAfterExpiry(run: Run, key: Key, at: Stamp) returns (ss: seq<Sys>, sts: seq<Step>)
    requires ConsistentState(run) && run.state.Running?
    ensures Behaviour(ss, sts) && Valid(ss[|sts|].db)
    ensures var s := ss[|sts|]; var id := run.runId;
      && Live(s, 0) && RunsUnderKey(s, 0, key) && s.workers[0].run == id && IsTerminal(s.db, id)
      && (forall a :: !Can(s, ByActor(a, TryFinalize(id))) && !Can(s, ByActor(a, TryReconcile(id))))
      && forall other: Run, fingerprint, now ::
        CreateTx(s.db, other, None, fingerprint, Some(key), now) == (s.db, Err(Busy))
  {
    var id := run.runId;
    ss, sts := Claimed(run, key, at);
    var hs, ms := H.OrdinaryLaunch();
    hs, ms := H.Extend(hs, ms, H.PassGate);
    ss, sts := Launch(ss, sts, 0, hs, ms);
    ss, sts := Extend(ss, sts, ByClient(ReadRun(id, 31.0, at)));
    var s := ss[|sts|];
    assert HoldsActivity(s.workers[0]) && !NobodyShared(s, id);
  }

  // ----- an ordinary run

  /** A worker that has come to the end of an execution with this code. */
  predicate HasRun(w: Worker, id: RunId, code: int) {
    w.run == id && w.session.ran && w.session.returned == Some(code) && w.session.worker.Left? && w.session.activity == {}
  }

  lemma Executed(run: Run, key: Key, code: int, at: Stamp) returns (ss: seq<Sys>, sts: seq<Step>)
    requires ConsistentState(run) && run.state.Running?
    ensures Behaviour(ss, sts) && Valid(ss[|sts|].db) && StoredUnder(ss[|sts|], run, key)
    ensures var s := ss[|sts|];
      && s.db.runs[run.runId].owner == Some(0) && s.workers.Keys == {0}
      && HasRun(s.workers[0], run.runId, code) && s.workers[0].pc.Owning?
  {
    ss, sts := Claimed(run, key, at);
    var hs, ms := H.OrdinaryExecution(code);
    ss, sts := Launch(ss, sts, 0, hs, ms);
  }

  /** The worker has ended the run with this record; the record waits for settlement. */
  ghost predicate EndedWith(s: Sys, key: Key, result: Run, code: int) {
    && s.actors == map[] && Owes(s.db, result.runId) && s.db.runs[result.runId].data == result
    && s.db.locks == map[key := result.runId]
    && s.workers.Keys == {0} && HasRun(s.workers[0], result.runId, code) && !s.workers[0].hold
  }

  lemma Ended(run: Run, key: Key, result: Run, code: int, at: Stamp) returns (ss: seq<Sys>, sts: seq<Step>)
    requires ConsistentState(run) && run.state.Running? && ConsistentState(result) && !result.state.Running?
    requires result.runId == run.runId && SameInvocation(result, run)
    ensures Behaviour(ss, sts) && Valid(ss[|sts|].db) && EndedWith(ss[|sts|], key, result, code)
  {
    ss, sts := Executed(run, key, code, at);
    ss, sts := Extend(ss, sts, ByWorker(0, Conclude(result)));
    ss, sts := Handed(ss, sts, key, run, result, code);
  }

  lemma Handed(ss: seq<Sys>, sts: seq<Step>, key: Key, run: Run, result: Run, code: int)
    returns (ss': seq<Sys>, sts': seq<Step>)
    requires Behaviour(ss, sts) && Valid(ss[|sts|].db) && StoredUnder(ss[|sts|], run, key)
    requires result.runId == run.runId && SameInvocation(result, run) && run.state.Running? && !result.state.Running?
    requires var s := ss[|sts|];
      && s.db.runs[run.runId].owner == Some(0) && s.workers.Keys == {0} && HasRun(s.workers[0], run.runId, code)
      && s.workers[0].pc == Concluded(result)
    ensures Behaviour(ss', sts') && Valid(ss'[|sts'|].db) && EndedWith(ss'[|sts'|], key, result, code)
  {
    ss', sts' := Extend(ss, sts, ByWorker(0, CommitResult(0.0, 0.0)));
    ss', sts' := Extend(ss', sts', ByWorker(0, LetGo));
  }

  /** Nothing in the protocol stands in the way of an ordinary run: whatever it is, under whatever
      key, and whatever legal record it ends with, it can be submitted, claimed, executed and
      settled. Then that record is stored and repeated in its result file, no private input is
      left, nobody is left working on it, and its key is locked exactly if its effects are
      uncertain. */
  lemma OrdinaryRun(run: Run, key: Key, result: Run, code: int, at: Stamp) returns (ss: seq<Sys>, sts: seq<Step>)
    requires ConsistentState(run) && run.state.Running? && ConsistentState(result) && !result.state.Running?
    requires result.runId == run.runId && SameInvocation(result, run)
    ensures Behaviour(ss, sts)
    ensures var s := ss[|sts|]; var id := run.runId;
      && IsSettled(s.db, id) && s.db.runs[id].data == result && FilesOf(s, id) == Files(Some(result), {})
      && s.actors == map[] && s.workers.Keys == {0} && HasRun(s.workers[0], id, code) && !HoldsActivity(s.workers[0])
      && s.db.locks == if Uncertain(result.effects) then map[key := id] else map[]
  {
    var id := run.runId;
    ss, sts := Ended(run, key, result, code, at);
    var s := ss[|sts|];
    assert ExclusiveFree(s, id);
    ss, sts := FinalizerRefinesService(ss, sts, 0, id, 0.0, at);
    SpecOfOwing(s.db, s.files, id, 0.0, at);
    var s' := ss[|sts|];
    assert s'.db == SettledTx(s.db, id, !Uncertain(result.effects)).0;
    assert FilesIn(s'.files, id) == Files(Some(result), {});
  }

  lemma InitialIsBehaviour()
    ensures Behaviour([INITIAL], [])
  {
  }
}
