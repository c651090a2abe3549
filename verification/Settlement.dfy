/** What lies beside a settled run: exactly when its stored result is the record and which of its
    private inputs are left (recovery_service.py:16-38, execution_service.py:106, files.py:65-71). */
module Settlement {
  import opened Prelude
  import opened Domain
  import opened RunStore
  import opened Artifacts
  import opened Protocol
  import opened ProtocolSafety

  // ----- who writes the files of a run

  predicate PreparesResult(st: Step, id: RunId) {
    st.ByClient? && st.client.PrepareResult? && st.client.run.runId == id
  }

  /** The finalizer `a` stores the result of the run. */
  predicate Saves(s: Sys, st: Step, a: ActorId, id: RunId) {
    st == ByActor(a, SaveResult(false)) && a in s.actors && s.actors[a].run == id
  }

  /** The finalizer `a` removes the `m`-th private file of the run. */
  predicate Scrubs(s: Sys, st: Step, a: ActorId, id: RunId, m: nat) {
    && st == ByActor(a, ScrubNext(false)) && a in s.actors && s.actors[a].run == id
    && s.actors[a].pc.Scrubbing? && s.actors[a].pc.done == m
  }

  predicate Settles(s: Sys, st: Step, a: ActorId, id: RunId) {
    st == ByActor(a, SettleRun) && a in s.actors && s.actors[a].run == id
  }

  /** The finalizer `a` has saved the result and tried the first `m` private files, all without
      fault. */
  predicate Scrubbed(s: Sys, a: ActorId, id: RunId, m: nat) {
    && a in s.actors && s.actors[a].run == id && s.actors[a].pc.Scrubbing?
    && s.actors[a].pc.clean && s.actors[a].pc.done >= m
  }

  /** From now on only the submitter can write the file: the finalizer has scrubbed it, or the run
      is settled. */
  predicate Guarded(s: Sys, a: ActorId, id: RunId, m: nat) {
    Scrubbed(s, a, id, m) || IsSettled(s.db, id)
  }

  /** A finalizer, a reconciler and retention exclude each other, and a live workflow. */
  lemma NobodyElse(s: Sys, a: ActorId, id: RunId, m: nat)
    requires Inv(s) && Guarded(s, a, id, m)
    ensures forall b :: b in s.actors && s.actors[b].run == id && (s.actors[b].pc.Saving? || s.actors[b].pc.Scrubbing?) ==>
      b == a && Scrubbed(s, a, id, m)
    ensures forall w :: w in s.workers && s.workers[w].run == id ==> !Live(s, w)
  {
    forall b | b in s.actors && s.actors[b].run == id && (s.actors[b].pc.Saving? || s.actors[b].pc.Scrubbing?)
      ensures b == a && Scrubbed(s, a, id, m)
    {
      assert ActorIsCurrent(s, s.actors[b]);
      assert HasExclusive(s.actors[b]);
    }
    forall w | w in s.workers && s.workers[w].run == id ensures !Live(s, w) {
      if Live(s, w) {
        LiveKeepsLock(s, w);
        LiveIsClaimed(s, w);
        assert false;
      }
    }
  }

  // ----- one step

  lemma WorkerLeavesFiles(s: Sys, w: WorkerId, st: WorkerStep, id: RunId)
    requires Valid(s.db) && CanWorker(s, w, st) && forall v :: v in s.workers && s.workers[v].run == id ==> !Live(s, v)
    ensures FilesOf(DoWorker(s, w, st), id) == FilesOf(s, id)
  {
  }

  lemma ClientWritesFiles(s: Sys, st: ClientStep, id: RunId)
    requires Valid(s.db) && CanClient(s, st)
    ensures var before, after := FilesOf(s, id), FilesOf(DoClient(s, st), id);
      && after.result == (if PreparesResult(ByClient(st), id) then Some(st.run) else before.result)
      && forall f :: f in after.private <==> f in before.private || WritesInput(ByClient(st), id, f)
  {
  }

  /** What a recovery participant does to the files, with the rest of its session behind it. */
  lemma ActorWritesFiles(s: Sys, b: ActorId, st: ActorStep, id: RunId, a: ActorId, m: nat)
    requires Valid(s.db) && CanActor(s, b, st) && !RemovesFilesOf(s, ByActor(b, st), id)
    requires b in s.actors && s.actors[b].run == id && (s.actors[b].pc.Saving? || s.actors[b].pc.Scrubbing?) ==>
      b == a && Scrubbed(s, a, id, m)
    ensures FilesOf(DoActor(s, b, st), id).result == FilesOf(s, id).result
    ensures m > 0 && m <= |SCRUB_ORDER| ==> var f := SCRUB_ORDER[m - 1];
      f in FilesOf(DoActor(s, b, st), id).private <==> f in FilesOf(s, id).private
  {
  }

  /** While only the submitter can write, the files change exactly as it writes. */
  lemma GuardedStep(s: Sys, st: Step, s': Sys, a: ActorId, id: RunId, m: nat)
    requires Inv(s) && Takes(s, st, s') && Guarded(s, a, id, m) && !RemovesFilesOf(s, st, id)
    ensures PreparesResult(st, id) ==> FilesOf(s', id).result == Some(st.client.run)
    ensures !PreparesResult(st, id) ==> FilesOf(s', id).result == FilesOf(s, id).result
    ensures m > 0 && m <= |SCRUB_ORDER| ==> var f := SCRUB_ORDER[m - 1];
      f in FilesOf(s', id).private <==> f in FilesOf(s, id).private || WritesInput(st, id, f)
  {
    NobodyElse(s, a, id, m);
    match st
    case ByClient(c) => ClientWritesFiles(s, c, id);
    case ByWorker(w, c) => WorkerLeavesFiles(s, w, c, id);
    case ByActor(b, c) => ActorWritesFiles(s, b, c, id, a, m);
  }

  // ----- from the scrub, or the save, to any later state

  ghost predicate InputWritten(sts: seq<Step>, id: RunId, f: PrivateFile, after: nat, before: nat)
    requires before <= |sts|
  {
    exists k :: after < k < before && WritesInput(sts[k], id, f)
  }

  ghost predicate ResultPrepared(sts: seq<Step>, id: RunId, after: nat, before: nat)
    requires before <= |sts|
  {
    exists k :: after < k < before && PreparesResult(sts[k], id)
  }

  /** The run is guarded by finalizer `a` or settled in all states after step `p` up to state `j`,
      and retention leaves its files alone. */
  ghost predicate GuardedThrough(ss: seq<Sys>, sts: seq<Step>, a: ActorId, id: RunId, m: nat, p: nat, j: nat)
    requires Behaviour(ss, sts) && j < |ss|
  {
    forall k :: p < k < j ==> Guarded(ss[k], a, id, m) && !RemovesFilesOf(ss[k], sts[k], id)
  }

  lemma ScrubRemoves(s: Sys, st: Step, s': Sys, a: ActorId, id: RunId, m: nat)
    requires Takes(s, st, s') && Scrubs(s, st, a, id, m) && m < |SCRUB_ORDER|
    ensures SCRUB_ORDER[m] !in FilesOf(s', id).private
  {
  }

  lemma SaveStores(s: Sys, st: Step, s': Sys, a: ActorId, id: RunId)
    requires Inv(s) && Takes(s, st, s') && Saves(s, st, a, id)
    ensures s.actors[a].pc.Saving? && !s.actors[a].pc.run.state.Running?
    ensures FilesOf(s', id).result == Some(s.actors[a].pc.run)
  {
    assert ActorIsCurrent(s, s.actors[a]);
  }

  /** In step `k` the file changes only as the submitter writes it; likewise the result. */
  predicate InputStep(ss: seq<Sys>, sts: seq<Step>, id: RunId, f: PrivateFile, k: nat)
    requires |ss| == |sts| + 1 && k < |sts|
  {
    f in FilesOf(ss[k + 1], id).private <==> f in FilesOf(ss[k], id).private || WritesInput(sts[k], id, f)
  }

  predicate ResultStep(ss: seq<Sys>, sts: seq<Step>, id: RunId, k: nat)
    requires |ss| == |sts| + 1 && k < |sts|
  {
    if PreparesResult(sts[k], id)
    then FilesOf(ss[k + 1], id).result == Some(sts[k].client.run) && sts[k].client.run.state.Running?
    else FilesOf(ss[k + 1], id).result == FilesOf(ss[k], id).result
  }

  lemma GuardedAt(ss: seq<Sys>, sts: seq<Step>, a: ActorId, id: RunId, m: nat, k: nat)
    requires Behaviour(ss, sts) && k < |sts| && Guarded(ss[k], a, id, m) && !RemovesFilesOf(ss[k], sts[k], id)
    ensures ResultStep(ss, sts, id, k)
    ensures m > 0 && m <= |SCRUB_ORDER| ==> InputStep(ss, sts, id, SCRUB_ORDER[m - 1], k)
  {
    BehaviourInv(ss, sts, k);
    assert Takes(ss[k], sts[k], ss[k + 1]);
    GuardedStep(ss[k], sts[k], ss[k + 1], a, id, m);
    if PreparesResult(sts[k], id) { PreparedIsActive(ss[k], sts[k], id); }
  }

  lemma PreparedIsActive(s: Sys, st: Step, id: RunId)
    requires Can(s, st) && PreparesResult(st, id)
    ensures st.client.run.state.Running?
  {
  }

  lemma {:induction false} InputAccumulates(ss: seq<Sys>, sts: seq<Step>, id: RunId, f: PrivateFile, p: nat, j: nat)
    requires |ss| == |sts| + 1 && p < j < |ss| && f !in FilesOf(ss[p + 1], id).private
    requires forall k :: p < k < j ==> InputStep(ss, sts, id, f, k)
    ensures f in FilesOf(ss[j], id).private <==> InputWritten(sts, id, f, p, j)
    decreases j
  {
    if j > p + 1 {
      InputAccumulates(ss, sts, id, f, p, j - 1);
      assert InputStep(ss, sts, id, f, j - 1);
    }
  }

  lemma {:induction false} ResultAccumulates(ss: seq<Sys>, sts: seq<Step>, id: RunId, record: Run, p: nat, j: nat)
    requires |ss| == |sts| + 1 && p < j < |ss| && FilesOf(ss[p + 1], id).result == Some(record)
    requires forall k :: p < k < j ==> ResultStep(ss, sts, id, k)
    ensures FilesOf(ss[j], id).result.Some?
    ensures if ResultPrepared(sts, id, p, j) then FilesOf(ss[j], id).result.value.state.Running?
      else FilesOf(ss[j], id).result == Some(record)
    decreases j
  {
    if j > p + 1 {
      ResultAccumulates(ss, sts, id, record, p, j - 1);
      assert ResultStep(ss, sts, id, j - 1);
    }
  }

  /** A private file that the finalizer removed is there again if and only if the submitter has
      written it since. */
  lemma InputSince(ss: seq<Sys>, sts: seq<Step>, a: ActorId, id: RunId, m: nat, p: nat, j: nat)
    requires Behaviour(ss, sts) && p < j < |ss| && m < |SCRUB_ORDER| && Scrubs(ss[p], sts[p], a, id, m)
    requires GuardedThrough(ss, sts, a, id, m + 1, p, j)
    ensures SCRUB_ORDER[m] in FilesOf(ss[j], id).private <==> InputWritten(sts, id, SCRUB_ORDER[m], p, j)
  {
    ScrubRemoves(ss[p], sts[p], ss[p + 1], a, id, m);
    forall k | p < k < j ensures InputStep(ss, sts, id, SCRUB_ORDER[m], k) {
      GuardedAt(ss, sts, a, id, m + 1, k);
    }
    InputAccumulates(ss, sts, id, SCRUB_ORDER[m], p, j);
  }

  /** The result that the finalizer saved is the stored one if and only if the submitter has not
      written its own, of the still active run, since. */
  lemma ResultSince(ss: seq<Sys>, sts: seq<Step>, a: ActorId, id: RunId, p: nat, j: nat)
    requires Behaviour(ss, sts) && p < j < |ss| && Saves(ss[p], sts[p], a, id)
    requires GuardedThrough(ss, sts, a, id, 0, p, j)
    ensures ss[p].actors[a].pc.Saving? && FilesOf(ss[j], id).result.Some?
    ensures if ResultPrepared(sts, id, p, j) then FilesOf(ss[j], id).result.value.state.Running?
      else FilesOf(ss[j], id).result == Some(ss[p].actors[a].pc.run)
  {
    BehaviourInv(ss, sts, p);
    SaveStores(ss[p], sts[p], ss[p + 1], a, id);
    forall k | p < k < j ensures ResultStep(ss, sts, id, k) {
      GuardedAt(ss, sts, a, id, 0, k);
    }
    ResultAccumulates(ss, sts, id, ss[p].actors[a].pc.run, p, j);
  }

  // ----- every settlement has its save and its scrubs

  lemma WorkersLeaveActors(s: Sys, w: WorkerId, st: WorkerStep)
    requires Valid(s.db) && CanWorker(s, w, st)
    ensures DoWorker(s, w, st).actors == s.actors
  {
  }

  lemma OthersLeaveActor(s: Sys, st: Step, a: ActorId)
    requires Valid(s.db) && Can(s, st) && !(st.ByActor? && st.a == a)
    ensures a in Do(s, st).actors <==> a in s.actors
    ensures a in s.actors ==> Do(s, st).actors[a] == s.actors[a]
  {
    match st
    case ByClient(c) => assert DoClient(s, c).actors == s.actors;
    case ByWorker(w, c) => WorkersLeaveActors(s, w, c);
    case ByActor(b, c) => ActorsLeaveOthers(s, b, c, a);
  }

  lemma ActorsLeaveOthers(s: Sys, b: ActorId, st: ActorStep, a: ActorId)
    requires Valid(s.db) && CanActor(s, b, st) && a != b
    ensures a in DoActor(s, b, st).actors <==> a in s.actors
    ensures a in s.actors ==> DoActor(s, b, st).actors[a] == s.actors[a]
  {
  }

  lemma OwnScrubbing(s: Sys, a: ActorId, st: ActorStep)
    requires Valid(s.db) && CanActor(s, a, st)
    requires var s' := DoActor(s, a, st); a in s'.actors && s'.actors[a].pc.Scrubbing? && s'.actors[a].pc.clean
    ensures a in s.actors && s.actors[a].run == DoActor(s, a, st).actors[a].run
    ensures var pc, pc' := s.actors[a].pc, DoActor(s, a, st).actors[a].pc;
      || (st == SaveResult(false) && pc.Saving? && pc.run == pc'.run && pc'.done == 0)
      || (st == ScrubNext(false) && pc.Scrubbing? && pc'.done == pc.done + 1 && pc.run == pc'.run && pc.clean)
  {
  }

  /** How a finalizer comes to have saved and scrubbed without fault. */
  lemma ScrubbingBefore(s: Sys, st: Step, s': Sys, a: ActorId)
    requires Takes(s, st, s') && a in s'.actors && s'.actors[a].pc.Scrubbing? && s'.actors[a].pc.clean
    ensures var id, pc' := s'.actors[a].run, s'.actors[a].pc;
      || (a in s.actors && s.actors[a] == s'.actors[a] && !(st.ByActor? && st.a == a))
      || (Saves(s, st, a, id) && s.actors[a].pc.Saving? && s.actors[a].pc.run == pc'.run && pc'.done == 0)
      || (pc'.done > 0 && Scrubs(s, st, a, id, pc'.done - 1) && s.actors[a].pc.run == pc'.run && s.actors[a].pc.clean)
  {
    if st.ByActor? && st.a == a { OwnScrubbing(s, a, st.actor); } else { OthersLeaveActor(s, st, a); }
  }

  /** The save and the scrubs behind a finalizer that has met no fault, in order. */
  ghost predicate SessionOf(ss: seq<Sys>, sts: seq<Step>, a: ActorId, id: RunId, save: nat, scrubs: seq<nat>, k: nat)
    requires Behaviour(ss, sts) && k < |ss|
  {
    && save < k && Saves(ss[save], sts[save], a, id)
    && (forall i :: save < i <= k ==> Scrubbed(ss[i], a, id, 0) && ss[i].actors[a].pc.run == ss[save + 1].actors[a].pc.run)
    && (forall m :: 0 <= m < |scrubs| ==>
        && save < scrubs[m] < k && Scrubs(ss[scrubs[m]], sts[scrubs[m]], a, id, m)
        && (forall i :: scrubs[m] < i <= k ==> Scrubbed(ss[i], a, id, m + 1)))
  }

  lemma {:induction false} SessionBehind(ss: seq<Sys>, sts: seq<Step>, a: ActorId, id: RunId, k: nat)
    returns (save: nat, scrubs: seq<nat>)
    requires Behaviour(ss, sts) && k < |ss| && Scrubbed(ss[k], a, id, 0)
    ensures SessionOf(ss, sts, a, id, save, scrubs, k) && |scrubs| == ss[k].actors[a].pc.done
    decreases k
  {
    assert k > 0;
    assert Takes(ss[k - 1], sts[k - 1], ss[k]);
    ScrubbingBefore(ss[k - 1], sts[k - 1], ss[k], a);
    if Saves(ss[k - 1], sts[k - 1], a, id) && ss[k - 1].actors[a].pc.Saving? {
      save, scrubs := k - 1, [];
    } else {
      save, scrubs := SessionBehind(ss, sts, a, id, k - 1);
      var n := ss[k].actors[a].pc.done;
      if n > ss[k - 1].actors[a].pc.done {
        scrubs := scrubs + [k - 1];
      }
    }
  }

  // ----- every settled run was settled by such a finalizer

  lemma OnlySettleSettles(db: Db, tx: Tx, id: RunId)
    requires Valid(db) && Admissible(tx) && (tx.Create? ==> tx.run.state.Running?)
    requires !IsSettled(db, id) && IsSettled(Apply(db, tx), id)
    ensures tx.Settle? && tx.id == id && id in db.runs && Apply(db, tx).runs[id].data == db.runs[id].data
  {
    if id in db.runs { ApplyByRow(db, tx, id); }
  }

  lemma SettlingStep(s: Sys, st: Step, s': Sys, id: RunId)
    requires Inv(s) && Takes(s, st, s') && !IsSettled(s.db, id) && IsSettled(s'.db, id)
    ensures st.ByActor? && Settles(s, st, st.a, id) && Scrubbed(s, st.a, id, |SCRUB_ORDER|)
    ensures id in s.db.runs && s'.db.runs[id].data == s.db.runs[id].data == s.actors[st.a].pc.run
  {
    TableStep(s, st, s');
    OnlySettleSettles(s.db, TxOf(s, st), id);
    assert ActorIsCurrent(s, s.actors[st.a]);
  }

  lemma {:induction false} SettlementOf(ss: seq<Sys>, sts: seq<Step>, j: nat, id: RunId) returns (q: nat, a: ActorId)
    requires Behaviour(ss, sts) && j < |ss| && IsSettled(ss[j].db, id)
    ensures q < j && Settles(ss[q], sts[q], a, id) && Scrubbed(ss[q], a, id, |SCRUB_ORDER|)
    ensures forall k :: q < k <= j ==> IsSettled(ss[k].db, id)
    ensures ss[j].db.runs[id].data == ss[q].actors[a].pc.run
    decreases j
  {
    assert j > 0;
    BehaviourInv(ss, sts, j - 1);
    assert Takes(ss[j - 1], sts[j - 1], ss[j]);
    if IsSettled(ss[j - 1].db, id) {
      q, a := SettlementOf(ss, sts, j - 1, id);
      SettledStays(ss[j - 1], sts[j - 1], id);
    } else {
      SettlingStep(ss[j - 1], sts[j - 1], ss[j], id);
      q, a := j - 1, sts[j - 1].a;
    }
  }

  /** What lies beside a settled run that retention has not touched. It was settled by a finalizer
      that had saved its result and scrubbed each of its private files. The stored result is the
      record if and only if the submitter has prepared none since that save, and a private file is
      there if and only if the submitter has written it since its scrub. */
  lemma SettledFilesExactlyWhen(ss: seq<Sys>, sts: seq<Step>, j: nat, id: RunId)
    returns (q: nat, a: ActorId, save: nat, scrubs: seq<nat>)
    requires Behaviour(ss, sts) && j < |ss| && IsSettled(ss[j].db, id)
    requires forall k :: 0 <= k < j ==> !RemovesFilesOf(ss[k], sts[k], id)
    ensures q < j && Settles(ss[q], sts[q], a, id) && |scrubs| == |SCRUB_ORDER|
    ensures save < q && Saves(ss[save], sts[save], a, id)
    ensures forall m :: 0 <= m < |scrubs| ==> save < scrubs[m] < q && Scrubs(ss[scrubs[m]], sts[scrubs[m]], a, id, m)
    ensures FilesOf(ss[j], id).result == Some(ss[j].db.runs[id].data) <==> !ResultPrepared(sts, id, save, j)
    ensures forall m :: 0 <= m < |scrubs| ==>
      (SCRUB_ORDER[m] in FilesOf(ss[j], id).private <==> InputWritten(sts, id, SCRUB_ORDER[m], scrubs[m], j))
  {
    q, a := SettlementOf(ss, sts, j, id);
    save, scrubs := SessionBehind(ss, sts, a, id, q);
    BehaviourInv(ss, sts, q);
    assert |scrubs| == |SCRUB_ORDER| by { SettledAtTheEnd(ss, sts, a, id, q); }
    SavedRecord(ss, sts, a, id, save, scrubs, q);
    assert GuardedThrough(ss, sts, a, id, 0, save, j);
    ResultSince(ss, sts, a, id, save, j);
    forall m | 0 <= m < |scrubs|
      ensures SCRUB_ORDER[m] in FilesOf(ss[j], id).private <==> InputWritten(sts, id, SCRUB_ORDER[m], scrubs[m], j)
    {
      assert GuardedThrough(ss, sts, a, id, m + 1, scrubs[m], j);
      InputSince(ss, sts, a, id, m, scrubs[m], j);
    }
  }

  lemma SettledAtTheEnd(ss: seq<Sys>, sts: seq<Step>, a: ActorId, id: RunId, q: nat)
    requires Behaviour(ss, sts) && q < |sts| && Settles(ss[q], sts[q], a, id)
    ensures ss[q].actors[a].pc.Scrubbing? && ss[q].actors[a].pc.done == |SCRUB_ORDER|
  {
    assert Takes(ss[q], sts[q], ss[q + 1]);
  }

  /** The finalizer saves what it settles. */
  lemma SavedRecord(ss: seq<Sys>, sts: seq<Step>, a: ActorId, id: RunId, save: nat, scrubs: seq<nat>, k: nat)
    requires Behaviour(ss, sts) && k < |ss| && SessionOf(ss, sts, a, id, save, scrubs, k)
    ensures ss[save].actors[a].pc.Saving? && ss[save].actors[a].pc.run == ss[k].actors[a].pc.run
  {
    assert Takes(ss[save], sts[save], ss[save + 1]);
    assert Scrubbed(ss[save + 1], a, id, 0) && Scrubbed(ss[k], a, id, 0);
  }
}
