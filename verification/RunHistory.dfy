/** What holds over whole histories of the run tables: fencing and lease expiry. */
module RunHistory {
  import opened Prelude
  import opened Domain
  import opened RunStore

  /** `dbs` are the tables before, between and after the transactions `txs`. */
  ghost predicate History(dbs: seq<Db>, txs: seq<Tx>) {
    && |dbs| == |txs| + 1
    && (forall i :: 0 <= i < |dbs| ==> Valid(dbs[i]))
    && (forall i :: 0 <= i < |txs| ==> Follows(dbs, txs, i))
  }

  ghost predicate Follows(dbs: seq<Db>, txs: seq<Tx>, i: nat)
    requires |dbs| == |txs| + 1 && i < |txs| && Valid(dbs[i])
  {
    Admissible(txs[i]) && dbs[i + 1] == Apply(dbs[i], txs[i])
  }

  /** Any transactions have a history from any valid tables: the later tables are valid
      because the first are, so `History` asks for nothing that could not be had. */
  lemma {:induction false} HistoriesExist(txs: seq<Tx>, db: Db) returns (dbs: seq<Db>)
    requires Valid(db) && forall i :: 0 <= i < |txs| ==> Admissible(txs[i])
    ensures History(dbs, txs) && dbs[0] == db
    decreases |txs|
  {
    if txs == [] {
      dbs := [db];
    } else {
      var n := |txs| - 1;
      var front := HistoriesExist(txs[..n], db);
      ApplyKeepsValid(front[n], txs[n]);
      dbs := front + [Apply(front[n], txs[n])];
      forall i: nat | i < |txs| ensures Follows(dbs, txs, i) {
        if i < n { assert Follows(front, txs[..n], i); }
      }
    }
  }

  /** How far a run has come: unclaimed, owned, terminal and pending, settled. */
  function Stage(row: Row): nat {
    if row.data.state.Running? then (if row.owner.None? then 0 else 1)
    else if row.pending then 2 else 3
  }

  /** The same step, seen from one run: its row follows the row-wise reading of the
      transaction until the run is deleted, which only happens to settled runs. */
  ghost predicate RowFollows(db: Db, tx: Tx, db': Db, id: RunId) {
    && Admissible(tx)
    && (id in db.runs ==>
          && ValidRow(id, db.runs[id])
          && (id in db'.runs ==> db'.runs[id] == if Concerns(tx, id) then Updated(db.runs[id], tx) else db.runs[id])
          && (id !in db'.runs ==> Stage(db.runs[id]) == 3))
    && (id !in db.runs && id in db'.runs ==> tx.Create? && tx.run.runId == id)
  }

  ghost predicate RowHistory(dbs: seq<Db>, txs: seq<Tx>, id: RunId) {
    |dbs| == |txs| + 1 && forall i :: 0 <= i < |txs| ==> RowFollows(dbs[i], txs[i], dbs[i + 1], id)
  }

  lemma RowHistoryOf(dbs: seq<Db>, txs: seq<Tx>, id: RunId)
    requires History(dbs, txs)
    ensures RowHistory(dbs, txs, id)
  {
    forall i: nat | i < |txs| ensures RowFollows(dbs[i], txs[i], dbs[i + 1], id) {
      assert Follows(dbs, txs, i);
      ApplyByRowOf(dbs[i], txs[i], id);
    }
  }

  lemma ApplyByRowOf(db: Db, tx: Tx, id: RunId)
    requires Valid(db) && Admissible(tx)
    ensures RowFollows(db, tx, Apply(db, tx), id)
  {
    if id in db.runs { ApplyByRow(db, tx, id); }
  }

  /** The transaction `tx` is let through to the lease of run `id`. */
  ghost predicate UsesLease(db: Db, tx: Tx, id: RunId) {
    LeaseUse(tx) && Concerns(tx, id) && id in db.runs && Granted(db.runs[id], tx)
  }

  /** That is exactly when the transaction succeeds. */
  lemma UsesLeaseMeansSucceeds(db: Db, tx: Tx, id: RunId)
    requires Valid(db) && LeaseUse(tx) && Concerns(tx, id)
    ensures UsesLease(db, tx, id) <==> Succeeds(db, tx)
  {
    if id in db.runs { ApplyByRow(db, tx, id); }
  }

  /** A run never moves back, a terminal record is never touched, and the identity of the
      invocation never changes. */
  predicate RowAdvances(row: Row, row': Row) {
    && Stage(row) <= Stage(row') && SameInvocation(row'.data, row.data)
    && row'.requestId == row.requestId && row'.fingerprint == row.fingerprint
    && (Stage(row) >= 2 ==> row'.data == row.data && row'.heartbeat == row.heartbeat)
  }

  lemma UpdatedAdvances(id: RunId, row: Row, tx: Tx)
    requires ValidRow(id, row) && Admissible(tx)
    ensures RowAdvances(row, Updated(row, tx))
    ensures LeaseUse(tx) && Granted(row, tx) ==> Stage(row) <= 1 && Stage(Updated(row, tx)) >= 1
    ensures tx.Claim? && Granted(row, tx) ==> Stage(row) == 0
  {
  }

  /** While the run is not deleted, its stage only grows and a terminal record is final. */
  lemma {:induction false} StagesGrow(dbs: seq<Db>, txs: seq<Tx>, id: RunId, i: nat, j: nat)
    requires RowHistory(dbs, txs, id) && i <= j < |dbs|
    requires forall k :: i <= k <= j ==> id in dbs[k].runs
    ensures RowAdvances(dbs[i].runs[id], dbs[j].runs[id])
    decreases j - i
  {
    if i < j {
      assert RowFollows(dbs[i], txs[i], dbs[i + 1], id);
      UpdatedAdvances(id, dbs[i].runs[id], txs[i]);
      StagesGrow(dbs, txs, id, i + 1, j);
    }
  }

  /** A claim that succeeds finds the run unclaimed and leaves it claimed. */
  lemma ClaimMovesOn(dbs: seq<Db>, txs: seq<Tx>, id: RunId, i: nat)
    requires History(dbs, txs) && i < |txs| && txs[i].Claim? && UsesLease(dbs[i], txs[i], id)
    ensures Stage(dbs[i].runs[id]) == 0
    ensures id in dbs[i + 1].runs ==> Stage(dbs[i + 1].runs[id]) >= 1
  {
    RowHistoryOf(dbs, txs, id);
    assert RowFollows(dbs[i], txs[i], dbs[i + 1], id);
    UpdatedAdvances(id, dbs[i].runs[id], txs[i]);
  }

  /** Fencing, part one: a run is claimed at most once before it is deleted. */
  lemma ClaimedOnce(dbs: seq<Db>, txs: seq<Tx>, id: RunId, i: nat, j: nat)
    requires History(dbs, txs) && i < j < |txs|
    requires txs[i].Claim? && UsesLease(dbs[i], txs[i], id)
    requires txs[j].Claim? && UsesLease(dbs[j], txs[j], id)
    ensures exists k :: i < k < j && id !in dbs[k].runs
  {
    ClaimMovesOn(dbs, txs, id, i);
    ClaimMovesOn(dbs, txs, id, j);
    RowHistoryOf(dbs, txs, id);
    StageFell(dbs, txs, id, i + 1, j);
  }

  /** A run found at an earlier stage than before has been deleted in between. */
  lemma StageFell(dbs: seq<Db>, txs: seq<Tx>, id: RunId, i: nat, j: nat)
    requires RowHistory(dbs, txs, id) && i <= j < |dbs| && id in dbs[j].runs
    requires id in dbs[i].runs ==> Stage(dbs[j].runs[id]) < Stage(dbs[i].runs[id])
    ensures exists k :: i <= k < j && id !in dbs[k].runs
  {
    if forall k :: i <= k < j ==> id in dbs[k].runs {
      StagesGrow(dbs, txs, id, i, j);
      assert false;
    }
  }

  /** Fencing, part two: after a terminal commit or an expiry no claim, heartbeat or commit
      succeeds, and the record stays as it is until it is deleted. */
  lemma TerminalIsFinal(dbs: seq<Db>, txs: seq<Tx>, id: RunId, i: nat, j: nat)
    requires History(dbs, txs) && i <= j < |txs|
    requires forall k :: i <= k <= j ==> id in dbs[k].runs
    requires !dbs[i].runs[id].data.state.Running?
    ensures dbs[j].runs[id].data == dbs[i].runs[id].data
    ensures !UsesLease(dbs[j], txs[j], id)
  {
    RowHistoryOf(dbs, txs, id);
    StagesGrow(dbs, txs, id, i, j);
  }

  /** The identity a caller sees for a run, its request id and its fingerprint are constant. */
  lemma InvocationIsConstant(dbs: seq<Db>, txs: seq<Tx>, id: RunId, i: nat, j: nat)
    requires History(dbs, txs) && i <= j < |dbs|
    requires forall k :: i <= k <= j ==> id in dbs[k].runs
    ensures SameInvocation(dbs[j].runs[id].data, dbs[i].runs[id].data)
    ensures dbs[j].runs[id].requestId == dbs[i].runs[id].requestId
    ensures dbs[j].runs[id].fingerprint == dbs[i].runs[id].fingerprint
  {
    RowHistoryOf(dbs, txs, id);
    StagesGrow(dbs, txs, id, i, j);
  }

  /** A request id that a run carries is answered with that run, and creates nothing. */
  lemma RequestIsAnswered(db: Db, id: RunId, q: string, run: Run, fingerprint: string, lockKey: Option<Key>, now: real)
    requires Valid(db) && q != "" && id in db.runs && db.runs[id].requestId == Some(q)
    ensures CreateTx(db, run, Some(q), fingerprint, lockKey, now)
      == (db, if fingerprint == db.runs[id].fingerprint then Ok(db.runs[id].data) else Err(RequestConflict))
  {
    assert db.requests[q] == id;
  }

  /** Idempotent submission: once a run was created for a request, repeating the request gives
      back that run, as long as it exists; a different invocation under the id is refused. */
  lemma RepeatedRequest(dbs: seq<Db>, txs: seq<Tx>, id: RunId, q: string, i: nat, j: nat, run: Run, fingerprint: string,
      lockKey: Option<Key>, now: real)
    requires History(dbs, txs) && i <= j < |dbs| && q != "" && forall k :: i <= k <= j ==> id in dbs[k].runs
    requires dbs[i].runs[id].requestId == Some(q)
    ensures Valid(dbs[j])
    ensures var (after, result) := CreateTx(dbs[j], run, Some(q), fingerprint, lockKey, now);
      && after == dbs[j]
      && (result.Ok? <==> fingerprint == dbs[i].runs[id].fingerprint)
      && (result.Ok? ==> result.value.runId == id && SameInvocation(result.value, dbs[i].runs[id].data))
      && (result.Err? ==> result.error == RequestConflict)
  {
    InvocationIsConstant(dbs, txs, id, i, j);
    RequestIsAnswered(dbs[j], id, q, run, fingerprint, lockKey, now);
  }

  // ----- leases under a clock that does not go backwards

  predicate Timed(tx: Tx) {
    tx.Get? || tx.Claim? || tx.Commit? || tx.Heartbeat?
  }

  function Early(tx: Tx): real
    requires Timed(tx)
  {
    if tx.Get? then tx.now else tx.beat
  }

  function Late(tx: Tx): real
    requires Timed(tx)
  {
    if tx.Get? then tx.now else tx.check
  }

  /** Clock readings never decrease, within a transaction or from one to a later one. */
  predicate ClockForward(txs: seq<Tx>) {
    && (forall i :: 0 <= i < |txs| && Timed(txs[i]) ==> Early(txs[i]) <= Late(txs[i]))
    && (forall i, j :: 0 <= i < j < |txs| && Timed(txs[i]) && Timed(txs[j]) ==> Late(txs[i]) <= Early(txs[j]))
  }

  /** Signs of life of the worker `owner` of run `id`, which claims at position `a`. */
  predicate IsBeat(txs: seq<Tx>, id: RunId, owner: Owner, a: nat, q: nat)
    requires q < |txs|
  {
    if q == a then txs[q].Claim? && txs[q].id == id && txs[q].owner == owner
    else a < q && txs[q].Heartbeat? && txs[q].id == id && txs[q].owner == owner
  }

  /** The latest sign of life before position `q`, starting from the creation time `h`. */
  function LastBeat(txs: seq<Tx>, id: RunId, owner: Owner, a: nat, h: real, q: nat): real
    requires q <= |txs|
  {
    if q == 0 then h
    else if IsBeat(txs, id, owner, a, q - 1) then txs[q - 1].beat
    else LastBeat(txs, id, owner, a, h, q - 1)
  }

  /** The worker claims first and on time, no gap between two signs of life exceeds the
      lease, the history ends within a lease of the last one, and nobody who could hold
      the lease commits a result meanwhile. */
  ghost predicate KeepsBeating(txs: seq<Tx>, id: RunId, owner: Owner, a: nat, h: real, end: real) {
    && a < |txs| && IsBeat(txs, id, owner, a, a)
    && (forall q :: 0 <= q < a ==> !(LeaseUse(txs[q]) && Concerns(txs[q], id)))
    && (forall q :: a < q < |txs| && txs[q].Commit? && txs[q].run.runId == id ==> txs[q].holder != Some(owner))
    && (forall q :: 0 <= q < |txs| && IsBeat(txs, id, owner, a, q) ==>
          txs[q].check - LastBeat(txs, id, owner, a, h, q) <= LEASE)
    && (forall q :: 0 <= q < |txs| && Timed(txs[q]) ==> Late(txs[q]) <= end)
    && end - LastBeat(txs, id, owner, a, h, |txs|) <= LEASE
  }

  /** No reading before the next sign of life, or before the end, is more than a lease late. */
  lemma {:induction false} ReadingsAreTimely(txs: seq<Tx>, id: RunId, owner: Owner, a: nat, h: real, end: real, q: nat, p: nat)
    requires ClockForward(txs) && KeepsBeating(txs, id, owner, a, h, end)
    requires q < p <= |txs| && Timed(txs[q])
    requires forall b :: q <= b < p ==> !IsBeat(txs, id, owner, a, b)
    requires LastBeat(txs, id, owner, a, h, p) == LastBeat(txs, id, owner, a, h, q)
    ensures Late(txs[q]) - LastBeat(txs, id, owner, a, h, q) <= LEASE
    decreases |txs| - p
  {
    if p == |txs| {
    } else if IsBeat(txs, id, owner, a, p) {
      assert Late(txs[q]) <= Early(txs[p]) <= Late(txs[p]);
    } else {
      ReadingsAreTimely(txs, id, owner, a, h, end, q, p + 1);
    }
  }

  /** One transaction of such a history keeps the run active, owned and freshly beaten. */
  lemma BeatingStep(dbs: seq<Db>, txs: seq<Tx>, id: RunId, owner: Owner, a: nat, h: real, end: real, q: nat)
    requires RowHistory(dbs, txs, id) && ClockForward(txs) && KeepsBeating(txs, id, owner, a, h, end) && q < |txs|
    requires id in dbs[q].runs && dbs[q].runs[id].data.state.Running?
    requires dbs[q].runs[id].heartbeat == LastBeat(txs, id, owner, a, h, q)
    requires dbs[q].runs[id].owner == if q <= a then None else Some(owner)
    ensures id in dbs[q + 1].runs && dbs[q + 1].runs[id].data.state.Running?
    ensures dbs[q + 1].runs[id].heartbeat == LastBeat(txs, id, owner, a, h, q + 1)
    ensures dbs[q + 1].runs[id].owner == if q + 1 <= a then None else Some(owner)
    ensures IsBeat(txs, id, owner, a, q) ==> UsesLease(dbs[q], txs[q], id)
  {
    assert RowFollows(dbs[q], txs[q], dbs[q + 1], id);
    if txs[q].Get? && txs[q].id == id {
      ReadingsAreTimely(txs, id, owner, a, h, end, q, q + 1);
    }
  }

  /** The whole of such a history, from an unclaimed run on. */
  lemma {:induction false} BeatingKeeps(dbs: seq<Db>, txs: seq<Tx>, id: RunId, owner: Owner, a: nat, h: real, end: real, q: nat)
    requires RowHistory(dbs, txs, id) && ClockForward(txs) && KeepsBeating(txs, id, owner, a, h, end) && q <= |txs|
    requires id in dbs[0].runs && dbs[0].runs[id].data.state.Running?
    requires dbs[0].runs[id].owner.None? && dbs[0].runs[id].heartbeat == h
    ensures id in dbs[q].runs && dbs[q].runs[id].data.state.Running?
    ensures dbs[q].runs[id].heartbeat == LastBeat(txs, id, owner, a, h, q)
    ensures dbs[q].runs[id].owner == if q <= a then None else Some(owner)
  {
    if q > 0 {
      BeatingKeeps(dbs, txs, id, owner, a, h, end, q - 1);
      BeatingStep(dbs, txs, id, owner, a, h, end, q - 1);
    }
  }

  lemma BeatingBeats(dbs: seq<Db>, txs: seq<Tx>, id: RunId, owner: Owner, a: nat, h: real, end: real, q: nat)
    requires RowHistory(dbs, txs, id) && ClockForward(txs) && KeepsBeating(txs, id, owner, a, h, end) && q < |txs|
    requires id in dbs[0].runs && dbs[0].runs[id].data.state.Running?
    requires dbs[0].runs[id].owner.None? && dbs[0].runs[id].heartbeat == h
    requires IsBeat(txs, id, owner, a, q)
    ensures UsesLease(dbs[q], txs[q], id)
  {
    BeatingKeeps(dbs, txs, id, owner, a, h, end, q);
    BeatingStep(dbs, txs, id, owner, a, h, end, q);
  }

  // ----- from the creation of a run on

  /** The transaction at position `p` creates run `id`: its row is new there. */
  ghost predicate CreatedAt(dbs: seq<Db>, txs: seq<Tx>, id: RunId, p: nat) {
    && |dbs| == |txs| + 1 && p < |txs| && txs[p].Create? && txs[p].run.runId == id
    && id !in dbs[p].runs && id in dbs[p + 1].runs
  }

  lemma CreationIsFresh(dbs: seq<Db>, txs: seq<Tx>, id: RunId, p: nat)
    requires Steps(dbs, txs) && CreatedAt(dbs, txs, id, p)
    ensures Inserts(dbs[p], txs[p])
    ensures var row := dbs[p + 1].runs[id];
      row.data == txs[p].run && row.heartbeat == txs[p].now && row.owner.None? && !row.pending
  {
    assert StepAt(dbs, txs, p);
    CreationLeaves(dbs[p], txs[p]);
  }

  /** What follows position `p` is a history of its own. */
  lemma LaterHistory(dbs: seq<Db>, txs: seq<Tx>, id: RunId, p: nat)
    requires History(dbs, txs) && p < |txs|
    ensures RowHistory(dbs[p + 1..], txs[p + 1..], id)
  {
    RowHistoryOf(dbs, txs, id);
    var ds, ts := dbs[p + 1..], txs[p + 1..];
    forall i: nat | i < |ts| ensures RowFollows(ds[i], ts[i], ds[i + 1], id) {
      var k := p + 1 + i;
      assert RowFollows(dbs[k], txs[k], dbs[k + 1], id);
    }
  }

  /** One transaction of a history of valid tables. */
  ghost predicate Step(db: Db, tx: Tx, db': Db) {
    Valid(db) && Admissible(tx) && db' == Apply(db, tx)
  }

  ghost predicate Steps(dbs: seq<Db>, txs: seq<Tx>) {
    |dbs| == |txs| + 1 && forall i :: 0 <= i < |txs| ==> StepAt(dbs, txs, i)
  }

  ghost predicate StepAt(dbs: seq<Db>, txs: seq<Tx>, i: nat)
    requires |dbs| == |txs| + 1 && i < |txs|
  {
    Step(dbs[i], txs[i], dbs[i + 1])
  }

  lemma StepsOf(dbs: seq<Db>, txs: seq<Tx>)
    requires History(dbs, txs)
    ensures Steps(dbs, txs)
  {
    forall i: nat | i < |txs| ensures StepAt(dbs, txs, i) {
      assert Follows(dbs, txs, i);
    }
  }

  /** The heartbeat moves exactly when the lease is used. */
  lemma StepBeats(dbs: seq<Db>, txs: seq<Tx>, id: RunId, i: nat)
    requires Steps(dbs, txs) && i < |txs| && id in dbs[i].runs && id in dbs[i + 1].runs
    ensures dbs[i + 1].runs[id].heartbeat == if UsesLease(dbs[i], txs[i], id) then txs[i].beat else dbs[i].runs[id].heartbeat
  {
    assert StepAt(dbs, txs, i);
    ApplyByRow(dbs[i], txs[i], id);
  }

  /** An owner comes by claiming only. */
  lemma StepOwner(dbs: seq<Db>, txs: seq<Tx>, id: RunId, i: nat, owner: Owner)
    requires Steps(dbs, txs) && i < |txs| && id in dbs[i].runs && id in dbs[i + 1].runs
    requires dbs[i + 1].runs[id].owner == Some(owner) != dbs[i].runs[id].owner
    ensures ClaimsAt(dbs, txs, id, i, owner)
  {
    assert StepAt(dbs, txs, i);
    ApplyByRow(dbs[i], txs[i], id);
  }

  /** A claim of the run by this owner that is let through. */
  ghost predicate ClaimsAt(dbs: seq<Db>, txs: seq<Tx>, id: RunId, i: nat, owner: Owner) {
    i < |txs| && i < |dbs| && txs[i].Claim? && txs[i].owner == owner && UsesLease(dbs[i], txs[i], id)
  }

  /** A terminal row changes only by settling, and it becomes terminal as committed. */
  lemma StepStays(dbs: seq<Db>, txs: seq<Tx>, id: RunId, i: nat)
    requires Steps(dbs, txs) && i < |txs| && id in dbs[i].runs && id in dbs[i + 1].runs
    ensures !dbs[i].runs[id].data.state.Running? ==>
              && dbs[i + 1].runs[id].data == dbs[i].runs[id].data
              && (dbs[i + 1].runs[id].pending <==> dbs[i].runs[id].pending && !Settles(txs[i], id))
    ensures txs[i].Commit? && UsesLease(dbs[i], txs[i], id) ==>
              dbs[i + 1].runs[id].data == txs[i].run && !txs[i].run.state.Running? && dbs[i + 1].runs[id].pending
  {
    assert StepAt(dbs, txs, i);
    ApplyByRow(dbs[i], txs[i], id);
    UpdatedAdvances(id, dbs[i].runs[id], txs[i]);
  }

  predicate Settles(tx: Tx, id: RunId) {
    tx.Settle? && tx.id == id
  }

  /** Lease exactness, part one: a worker that claims within 30 seconds of the creation of its
      run and beats at gaps of at most 30 seconds is never expired, whatever reads, recoveries
      and rival claims run in between. */
  lemma LeaseIsKept(dbs: seq<Db>, txs: seq<Tx>, id: RunId, p: nat, owner: Owner, a: nat, end: real, q: nat)
    requires History(dbs, txs) && CreatedAt(dbs, txs, id, p) && txs[p].run.state.Running?
    requires ClockForward(txs[p + 1..]) && KeepsBeating(txs[p + 1..], id, owner, a, txs[p].now, end)
    requires p < q <= |txs|
    ensures id in dbs[q].runs && dbs[q].runs[id].data.state.Running?
    ensures dbs[q].runs[id].heartbeat == LastBeat(txs[p + 1..], id, owner, a, txs[p].now, q - p - 1)
    ensures dbs[q].runs[id].owner == if q - p - 1 <= a then None else Some(owner)
  {
    StepsOf(dbs, txs);
    CreationIsFresh(dbs, txs, id, p);
    LaterHistory(dbs, txs, id, p);
    BeatingKeeps(dbs[p + 1..], txs[p + 1..], id, owner, a, txs[p].now, end, q - p - 1);
  }

  /** And the claim and every heartbeat of that worker succeed. */
  lemma BeatsSucceed(dbs: seq<Db>, txs: seq<Tx>, id: RunId, p: nat, owner: Owner, a: nat, end: real, q: nat)
    requires History(dbs, txs) && CreatedAt(dbs, txs, id, p) && txs[p].run.state.Running?
    requires ClockForward(txs[p + 1..]) && KeepsBeating(txs[p + 1..], id, owner, a, txs[p].now, end)
    requires p < q < |txs| && IsBeat(txs[p + 1..], id, owner, a, q - p - 1)
    ensures Succeeds(dbs[q], txs[q])
  {
    StepsOf(dbs, txs);
    CreationIsFresh(dbs, txs, id, p);
    LaterHistory(dbs, txs, id, p);
    BeatingBeats(dbs[p + 1..], txs[p + 1..], id, owner, a, txs[p].now, end, q - p - 1);
    UsesLeaseMeansSucceeds(dbs[q], txs[q], id);
  }

  /** The last sign of life of a run created at position `p`: its creation, or the latest
      claim, heartbeat or commit that was let through. */
  ghost function LastSign(dbs: seq<Db>, txs: seq<Tx>, id: RunId, p: nat, q: nat): real
    requires CreatedAt(dbs, txs, id, p) && p < q <= |txs|
  {
    if q == p + 1 then txs[p].now
    else if UsesLease(dbs[q - 1], txs[q - 1], id) then txs[q - 1].beat
    else LastSign(dbs, txs, id, p, q - 1)
  }

  /** The stored heartbeat is that last sign of life, from the time of creation on. */
  lemma {:induction false} HeartbeatIsLastSign(dbs: seq<Db>, txs: seq<Tx>, id: RunId, p: nat, q: nat)
    requires Steps(dbs, txs) && CreatedAt(dbs, txs, id, p) && p < q <= |txs|
    requires forall k :: p < k <= q ==> id in dbs[k].runs
    ensures dbs[q].runs[id].heartbeat == LastSign(dbs, txs, id, p, q)
  {
    if q == p + 1 {
      CreationIsFresh(dbs, txs, id, p);
    } else {
      HeartbeatIsLastSign(dbs, txs, id, p, q - 1);
      StepBeats(dbs, txs, id, q - 1);
    }
  }

  /** Lease exactness, part two: once more than 30 seconds have passed since the last sign of
      life, be it the creation, no claim, heartbeat or commit of the run succeeds any more,
      even if nobody read it and so nobody has marked it lost, and whoever reads it finds it
      ended. Run ids are never used twice. */
  lemma LeaseIsGone(dbs: seq<Db>, txs: seq<Tx>, id: RunId, p: nat, m: nat, t: real, q: nat)
    requires History(dbs, txs) && CreatedAt(dbs, txs, id, p) && p < m <= q <= |txs|
    requires forall k :: p < k <= m ==> id in dbs[k].runs
    requires t - LastSign(dbs, txs, id, p, m) > LEASE
    requires forall i :: m <= i < |txs| && Timed(txs[i]) ==> t <= Early(txs[i]) <= Late(txs[i])
    requires forall i :: m <= i < |txs| ==> !(txs[i].Create? && txs[i].run.runId == id)
    ensures q < |txs| && LeaseUse(txs[q]) && Concerns(txs[q], id) ==> !Succeeds(dbs[q], txs[q])
    ensures forall now, at :: id in dbs[q].runs && now >= t ==> !GetTx(dbs[q], id, now, at).1.value.state.Running?
  {
    StepsOf(dbs, txs);
    HeartbeatIsLastSign(dbs, txs, id, p, m);
    StaysOverdue(dbs, txs, id, LastSign(dbs, txs, id, p, m), m, t, q);
    GoneAnswers(dbs[q], id, LastSign(dbs, txs, id, p, m), t);
  }

  lemma {:induction false} StaysOverdue(dbs: seq<Db>, txs: seq<Tx>, id: RunId, h: real, m: nat, t: real, q: nat)
    requires Steps(dbs, txs) && m <= q <= |txs| && Overdue(dbs[m], id, h) && t - h > LEASE
    requires forall i :: m <= i < |txs| && Timed(txs[i]) ==> t <= Early(txs[i]) <= Late(txs[i])
    requires forall i :: m <= i < |txs| ==> !(txs[i].Create? && txs[i].run.runId == id)
    ensures Overdue(dbs[q], id, h)
  {
    if q > m {
      StaysOverdue(dbs, txs, id, h, m, t, q - 1);
      assert StepAt(dbs, txs, q - 1);
      GoneStep(dbs[q - 1], txs[q - 1], dbs[q], id, h, t);
    }
  }

  /** The run is there without a sign of life since `h`, or ended, or gone. */
  ghost predicate Overdue(db: Db, id: RunId, h: real) {
    id in db.runs && db.runs[id].data.state.Running? ==> db.runs[id].heartbeat == h
  }

  /** A transaction that comes too late for the lease leaves the heartbeat of an active run. */
  lemma GoneStep(db: Db, tx: Tx, db': Db, id: RunId, h: real, t: real)
    requires Step(db, tx, db') && Overdue(db, id, h) && t - h > LEASE
    requires LeaseUse(tx) ==> Late(tx) >= t
    requires !(tx.Create? && tx.run.runId == id)
    ensures Overdue(db', id, h)
  {
    ApplyByRowOf(db, tx, id);
  }

  lemma GoneAnswers(db: Db, id: RunId, h: real, t: real)
    requires Valid(db) && Overdue(db, id, h) && t - h > LEASE
    ensures forall tx :: LeaseUse(tx) && Concerns(tx, id) && Late(tx) >= t ==> !Succeeds(db, tx)
    ensures forall now, at :: id in db.runs && now >= t ==> !GetTx(db, id, now, at).1.value.state.Running?
  {
    forall tx | LeaseUse(tx) && Concerns(tx, id) && Late(tx) >= t ensures !Succeeds(db, tx) {
      UsesLeaseMeansSucceeds(db, tx, id);
    }
    forall now: real, at: Stamp | id in db.runs && now >= t ensures !GetTx(db, id, now, at).1.value.state.Running? {
      ReadingLeaves(db, id, now, at);
    }
  }

  /** An unclaimed run lives for exactly 30 seconds after its creation: until then a read gives
      it back as it was created and changes nothing, and a claim succeeds; after that the
      first read finds the worker lost and the claim fails. */
  lemma FreshRunIsClaimableExactlyWhen(dbs: seq<Db>, txs: seq<Tx>, id: RunId, p: nat, q: nat, owner: Owner, t: real, at: Stamp)
    requires History(dbs, txs) && CreatedAt(dbs, txs, id, p) && txs[p].run.state.Running? && p < q <= |txs|
    requires forall i :: p < i < q ==> !(LeaseUse(txs[i]) && Concerns(txs[i], id))
    requires forall i :: p < i < q && txs[i].Get? ==> txs[i].now <= t
    requires t - txs[p].now > LEASE ==> forall k :: p < k <= q ==> id in dbs[k].runs
    ensures id in dbs[q].runs
    ensures var (db', r) := GetTx(dbs[q], id, t, at);
      && ClaimTx(dbs[q], id, owner, t, t).1.Ok? == (t - txs[p].now <= LEASE)
      && if t - txs[p].now <= LEASE then db' == dbs[q] && r == Ok(txs[p].run)
         else r.Ok? && LostRun(r.value, txs[p].run)
  {
    StepsOf(dbs, txs);
    WaitingUntil(dbs, txs, id, p, q, t);
    WaitingAnswers(dbs[q], id, owner, txs[p].run, txs[p].now, t, at);
  }

  lemma WaitingAnswers(db: Db, id: RunId, owner: Owner, created: Run, now: real, t: real, at: Stamp)
    requires Valid(db) && id in db.runs && WaitsOrLost(db.runs[id], created, now, t) && created.state.Running?
    ensures var (db', r) := GetTx(db, id, t, at);
      && ClaimTx(db, id, owner, t, t).1.Ok? == (t - now <= LEASE)
      && if t - now <= LEASE then db' == db && r == Ok(created) else r.Ok? && LostRun(r.value, created)
  {
    ReadingLeaves(db, id, t, at);
  }

  /** What a lost worker leaves of its run. */
  predicate LostRun(run: Run, created: Run) {
    && run.state.Errored? && run.outcome.Inconclusive? && run.effects == created.effects
    && run.error == Some(Failure("WORKER_LOST", LOST))
  }

  /** The row is as it was created, or its time is over and a read has closed it. */
  ghost predicate WaitsOrLost(row: Row, created: Run, now: real, t: real) {
    || (row.data == created && row.heartbeat == now && row.owner.None?)
    || (t - now > LEASE && LostRun(row.data, created))
  }

  lemma WaitingStep(db: Db, tx: Tx, db': Db, id: RunId, created: Run, now: real, t: real)
    requires Step(db, tx, db') && id in db.runs && WaitsOrLost(db.runs[id], created, now, t) && created.state.Running?
    requires !(LeaseUse(tx) && Concerns(tx, id)) && (tx.Get? ==> tx.now <= t)
    ensures id in db'.runs ==> WaitsOrLost(db'.runs[id], created, now, t)
    ensures t - now <= LEASE ==> id in db'.runs
  {
    ApplyByRow(db, tx, id);
  }

  lemma {:induction false} WaitingUntil(dbs: seq<Db>, txs: seq<Tx>, id: RunId, p: nat, q: nat, t: real)
    requires Steps(dbs, txs) && CreatedAt(dbs, txs, id, p) && txs[p].run.state.Running? && p < q <= |txs|
    requires forall i :: p < i < q ==> !(LeaseUse(txs[i]) && Concerns(txs[i], id))
    requires forall i :: p < i < q && txs[i].Get? ==> txs[i].now <= t
    requires t - txs[p].now > LEASE ==> forall k :: p < k <= q ==> id in dbs[k].runs
    ensures id in dbs[q].runs
    ensures WaitsOrLost(dbs[q].runs[id], txs[p].run, txs[p].now, t)
  {
    if q == p + 1 {
      CreationIsFresh(dbs, txs, id, p);
    } else {
      WaitingUntil(dbs, txs, id, p, q - 1, t);
      assert StepAt(dbs, txs, q - 1);
      WaitingStep(dbs[q - 1], txs[q - 1], dbs[q], id, txs[p].run, txs[p].now, t);
    }
  }

  // ----- who may act, and what is left

  /** A run is owned only by who has claimed it since its creation. */
  lemma {:induction false} OnlyTheClaimantOwns(dbs: seq<Db>, txs: seq<Tx>, id: RunId, p: nat, q: nat, owner: Owner)
    requires Steps(dbs, txs) && CreatedAt(dbs, txs, id, p) && p < q <= |txs|
    requires forall k :: p < k <= q ==> id in dbs[k].runs
    requires dbs[q].runs[id].owner == Some(owner)
    ensures exists i :: p < i < q && ClaimsAt(dbs, txs, id, i, owner)
  {
    if q == p + 1 {
      CreationIsFresh(dbs, txs, id, p);
      assert false;
    } else if dbs[q - 1].runs[id].owner == Some(owner) {
      OnlyTheClaimantOwns(dbs, txs, id, p, q - 1, owner);
    } else {
      StepOwner(dbs, txs, id, q - 1, owner);
    }
  }

  /** Fencing, part three: whoever renews the lease of a run, or commits under an owner's name,
      has claimed it since its creation. */
  lemma OnlyTheClaimantActs(dbs: seq<Db>, txs: seq<Tx>, id: RunId, p: nat, q: nat, owner: Owner)
    requires History(dbs, txs) && CreatedAt(dbs, txs, id, p) && p < q < |txs|
    requires forall k :: p < k <= q ==> id in dbs[k].runs
    requires (txs[q].Heartbeat? && txs[q].owner == owner) || (txs[q].Commit? && txs[q].holder == Some(owner))
    requires Concerns(txs[q], id) && Succeeds(dbs[q], txs[q])
    ensures exists i :: p < i < q && ClaimsAt(dbs, txs, id, i, owner)
  {
    StepsOf(dbs, txs);
    UsesLeaseMeansSucceeds(dbs[q], txs[q], id);
    OnlyTheClaimantOwns(dbs, txs, id, p, q, owner);
  }

  /** The result that is committed is the result that is read from then on, and it waits for
      settlement until somebody settles it. */
  lemma CommitStays(dbs: seq<Db>, txs: seq<Tx>, id: RunId, i: nat, j: nat)
    requires History(dbs, txs) && i < j <= |txs| && txs[i].Commit? && Concerns(txs[i], id) && Succeeds(dbs[i], txs[i])
    requires forall k :: i <= k <= j ==> id in dbs[k].runs
    ensures dbs[j].runs[id].data == txs[i].run
    ensures dbs[j].runs[id].pending <==> forall k :: i < k < j ==> !Settles(txs[k], id)
  {
    StepsOf(dbs, txs);
    UsesLeaseMeansSucceeds(dbs[i], txs[i], id);
    StepStays(dbs, txs, id, i);
    StaysAsCommitted(dbs, txs, id, i, j);
  }

  lemma {:induction false} StaysAsCommitted(dbs: seq<Db>, txs: seq<Tx>, id: RunId, i: nat, j: nat)
    requires Steps(dbs, txs) && i < j <= |txs| && forall k :: i < k <= j ==> id in dbs[k].runs
    requires !dbs[i + 1].runs[id].data.state.Running? && dbs[i + 1].runs[id].pending
    ensures dbs[j].runs[id].data == dbs[i + 1].runs[id].data
    ensures dbs[j].runs[id].pending <==> forall k :: i < k < j ==> !Settles(txs[k], id)
  {
    if j > i + 1 {
      StaysAsCommitted(dbs, txs, id, i, j - 1);
      StepStays(dbs, txs, id, j - 1);
    }
  }
}
