/** The repository object: the same transactions, performed in place (run_repository.py).
    Every method states its whole effect as the transaction function it carries out; a
    method that raises leaves the tables as they were. */
module RunRepository {
  import opened Prelude
  import opened Domain
  import opened RunStore

  class SqliteRuns {
    var runs: map<RunId, Row>
    var requests: map<string, RunId>
    var locks: map<Key, RunId>

    function Tables(): Db
      reads this
    {
      Db(runs, requests, locks)
    }

    ghost predicate Inv()
      reads this
    {
      Valid(Tables())
    }

    constructor ()
      ensures Inv() && Tables() == EMPTY
    {
      runs, requests, locks := map[], map[], map[];
    }

    /** Insert an invocation, or give back the one that already used this request id. The
        record and the resource lock appear together or not at all. */
    method Create(run: Run, requestId: Option<string>, fingerprint: string, lockKey: Option<Key>, now: real)
      returns (r: Result<Run, DbError>)
      requires Inv() && ConsistentState(run)
      modifies this
      ensures Inv()
      ensures (Tables(), r) == CreateTx(old(Tables()), run, requestId, fingerprint, lockKey, now)
      ensures var tx := Tx.Create(run, requestId, fingerprint, lockKey, now);
        if Inserts(old(Tables()), tx) then r == Ok(run) && IsCreated(old(Tables()), tx, Tables())
        else Tables() == old(Tables())
    {
      CreationLeaves(Tables(), Tx.Create(run, requestId, fingerprint, lockKey, now));
      CreateKeepsValid(Tables(), run, requestId, fingerprint, lockKey, now);
      if requestId.Some? && requestId.value != "" && requestId.value in requests {
        var row := runs[requests[requestId.value]];
        if row.fingerprint != fingerprint { return Err(RequestConflict); }
        return Ok(row.data);
      }
      if lockKey.Some? && lockKey.value in locks { return Err(Busy); }
      if run.runId in runs || (requestId.Some? && requestId.value in requests) { return Err(StorageError); }
      if lockKey.Some? { locks := locks[lockKey.value := run.runId]; }
      if requestId.Some? { requests := requests[requestId.value := run.runId]; }
      runs := runs[run.runId := Row(run, None, now, requestId, fingerprint, false, None)];
      return Ok(run);
    }

    /** Read a run, expiring its lease first when it is overdue. */
    method Get(id: RunId, now: real, at: Stamp) returns (r: Result<Run, DbError>)
      requires Inv()
      modifies this
      ensures Inv()
      ensures (Tables(), r) == GetTx(old(Tables()), id, now, at)
    {
      ApplyKeepsValid(Tables(), Tx.Get(id, now, at));
      if id !in runs { return Err(RunNotFound); }
      var row := runs[id];
      var run := row.data;
      if run.state.Running? && now - row.heartbeat > LEASE {
        run := Lost(run, at);
        runs := runs[id := row.(data := run, owner := None, pending := true)];
      }
      return Ok(run);
    }

    /** Expire, then take the lease if it is free and alive. These are two transactions;
        another process may act between them, and the second one decides. */
    method Claim(id: RunId, owner: Owner, seen: real, at: Stamp, beat: real, check: real)
      returns (r: Result<Run, DbError>)
      requires Inv()
      modifies this
      ensures Inv()
      ensures var (checked, found) := GetTx(old(Tables()), id, seen, at);
        if found.Err? then Tables() == checked && r == found
        else (Tables(), r) == ClaimTx(checked, id, owner, beat, check)
    {
      r := Get(id, seen, at);
      if r.Err? { return; }
      r := TakeLease(id, owner, beat, check);
    }

    method TakeLease(id: RunId, owner: Owner, beat: real, check: real) returns (r: Result<Run, DbError>)
      requires Inv()
      modifies this
      ensures Inv()
      ensures (Tables(), r) == ClaimTx(old(Tables()), id, owner, beat, check)
    {
      ApplyKeepsValid(Tables(), Tx.Claim(id, owner, beat, check));
      if id !in runs || runs[id].owner.Some? || !runs[id].data.state.Running? || runs[id].heartbeat < check - LEASE {
        return Err(LeaseLost);
      }
      runs := runs[id := runs[id].(owner := Some(owner), heartbeat := beat)];
      return Ok(runs[id].data);
    }

    /** Commit a terminal record and its pending mark together, for the lease holder only. */
    method Finish(run: Run, owner: Option<Owner>, beat: real, check: real) returns (r: Result<(), DbError>)
      requires Inv() && ConsistentState(run)
      modifies this
      ensures Inv()
      ensures (Tables(), r) == FinishTx(old(Tables()), run, owner, beat, check)
    {
      ApplyKeepsValid(Tables(), Commit(run, owner, beat, check));
      if run.state.Running? { return Err(BadTransition); }
      if run.runId !in runs { return Err(RunNotFound); }
      var row := runs[run.runId];
      if !SameInvocation(run, row.data) { return Err(BadTransition); }
      if row.owner != owner || !row.data.state.Running? || row.heartbeat < check - LEASE {
        return Err(LeaseLost);
      }
      runs := runs[run.runId := row.(data := run, heartbeat := beat, owner := None, pending := true)];
      return Ok(());
    }

    method Heartbeat(id: RunId, owner: Owner, beat: real, check: real) returns (r: Result<(), DbError>)
      requires Inv()
      modifies this
      ensures Inv()
      ensures (Tables(), r) == HeartbeatTx(old(Tables()), id, owner, beat, check)
    {
      ApplyKeepsValid(Tables(), Tx.Heartbeat(id, owner, beat, check));
      if id !in runs || runs[id].owner != Some(owner) || !runs[id].data.state.Running? || runs[id].heartbeat < check - LEASE {
        return Err(LeaseLost);
      }
      runs := runs[id := runs[id].(heartbeat := beat)];
      return Ok(());
    }

    method SetPid(id: RunId, pid: int)
      requires Inv()
      modifies this
      ensures Inv() && Tables() == SetPidTx(old(Tables()), id, pid)
    {
      ApplyKeepsValid(Tables(), Tx.SetPid(id, pid));
      if id in runs { runs := runs[id := runs[id].(pid := Some(pid))]; }
    }

    /** Local finalization is complete: clear the mark and, if told so, free the resource. */
    method Settled(id: RunId, release: bool) returns (r: Result<(), DbError>)
      requires Inv()
      modifies this
      ensures Inv()
      ensures (Tables(), r) == SettledTx(old(Tables()), id, release)
    {
      if id !in runs { return Err(RunNotFound); }
      if runs[id].data.state.Running? { return Err(RunActive); }
      SettleKeepsValid(Tables(), id, release);
      if release { locks := WithoutLocks(locks, id); }
      runs := runs[id := runs[id].(pending := false)];
      return Ok(());
    }

    method ReleaseResource(id: RunId) returns (r: Result<(), DbError>)
      requires Inv()
      modifies this
      ensures Inv()
      ensures (Tables(), r) == ReleaseLockTx(old(Tables()), id)
      ensures r.Ok? <==> id in old(runs) && !old(runs)[id].data.state.Running? && !old(runs)[id].pending
      ensures r.Ok? ==> Frees(old(locks), locks, id) && !OwnsLock(Tables(), id)
      ensures r.Err? ==> locks == old(locks)
      ensures runs == old(runs) && requests == old(requests)
    {
      FreeingLeaves(Tables(), id);
      ApplyKeepsValid(Tables(), ReleaseLock(id));
      if id !in runs { return Err(RunNotFound); }
      if runs[id].data.state.Running? || runs[id].pending { return Err(RecoveryRequired); }
      locks := WithoutLocks(locks, id);
      return Ok(());
    }

    method IsPending(id: RunId) returns (r: Result<bool, DbError>)
      ensures r == if id in runs then Ok(runs[id].pending) else Err(RunNotFound)
    {
      if id !in runs { return Err(RunNotFound); }
      return Ok(runs[id].pending);
    }

    /** The oldest `limit` runs that recovery still owes something, in the order of the query. */
    method Pending(now: real, limit: nat) returns (ids: seq<RunId>)
      ensures FirstOfBacklog(Tables(), now, limit, ids)
    {
      var db := Tables();
      var rest := Backlog(db, now);
      ids := [];
      while |ids| < limit && rest != {}
        invariant |ids| <= limit && Distinct(ids)
        invariant forall i :: 0 <= i < |ids| ==> ids[i] in Backlog(db, now)
        invariant rest <= Backlog(db, now) && |rest| + |ids| == |Backlog(db, now)|
        invariant forall b :: b in Backlog(db, now) ==> (b in rest <==> b !in ids)
        invariant forall i, j :: 0 <= i < j < |ids| ==> Before(db, ids[i], ids[j])
        invariant forall i, b :: 0 <= i < |ids| && b in rest ==> Before(db, ids[i], b)
        decreases |rest|
      {
        var next := Earliest(db, now, rest);
        ids := ids + [next];
        rest := rest - {next};
      }
    }

    static method Earliest(db: Db, now: real, candidates: set<RunId>) returns (first: RunId)
      requires candidates != {} && candidates <= Backlog(db, now)
      ensures first in candidates
      ensures forall c :: c in candidates && c != first ==> Before(db, first, c)
    {
      first :| first in candidates;
      var rest := candidates - {first};
      while rest != {}
        invariant first in candidates && rest <= candidates
        invariant forall c :: c in candidates && c !in rest && c != first ==> Before(db, first, c)
        decreases |rest|
      {
        var c :| c in rest;
        if Before(db, c, first) { first := c; }
        rest := rest - {c};
      }
    }

    /** Retention: delete a run only when nothing about it is still open. */
    method Delete(id: RunId)
      requires Inv()
      modifies this
      ensures Inv() && Tables() == DeleteTx(old(Tables()), id)
    {
      DeleteKeepsValid(Tables(), id);
      if id in runs && !runs[id].pending && !runs[id].data.state.Running? && id !in locks.Values {
        var requestId := runs[id].requestId;
        if requestId.Some? { requests := requests - {requestId.value}; }
        runs := runs - {id};
      }
    }
  }
}
