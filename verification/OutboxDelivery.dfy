/** What an answered push leaves in the outbox, and what no later operation does with it
    (export_service.py:49-70, 88-178). */
module OutboxDelivery {
  import opened Prelude
  import opened Outbox
  import opened OutboxHistory
  import opened OutboxRetries

  // ----- synchronization

  /** The snapshot in the slot was prepared under another configuration, or is too old. */
  predicate Stale(w: World, now: Time) {
    w.store.pending.Some? ==>
      || w.store.digest != Some(w.config)
      || now - w.store.pending.value.createdAt >= w.config.delivery.retentionDays * 86400 * SECOND
  }

  /** Synchronizing empties the slot exactly of a stale snapshot, forgets the last payload
      exactly under another configuration, and keeps source and sequence. */
  lemma SynchronizationLeaves(w: World, now: Time)
    ensures var s := Synchronize(w.config, now, w.store);
      && s.pending == (if Stale(w, now) then None else w.store.pending)
      && s.lastPayload == (if w.store.digest == Some(w.config) then w.store.lastPayload else None)
      && s.digest == Some(w.config) && s.sourceId == w.store.sourceId && s.sequence == w.store.sequence
  {
  }

  // ----- one push that is not cut

  predicate Uncut(w: World, c: Call) {
    c.cut >= |Effects(w, c.operation)|
  }

  function Answered(w: World, c: Call): Result<Report, ExportError>
    requires c.operation.Push?
  {
    PushReport(w.config, w.store, c.operation.retry, c.operation.automatic, c.operation.env)
  }

  /** Exactly one more send, of this snapshot. */
  predicate SendsOne(w: World, w': World, n: Snapshot) {
    |w'.sends| == |w.sends| + 1 && w.sends <= w'.sends && w'.sends[|w.sends|].snapshot == n
  }

  /** What the slot holds after a failure of this snapshot: one attempt more and the failure. */
  predicate KeepsFailed(before: ExportState, after: ExportState, n: Snapshot, failure: Failure) {
    && before.pending.Some? && after.pending.Some? && after.pending.value.snapshot == n == before.pending.value.snapshot
    && after.pending.value.attempts == before.pending.value.attempts + 1
    && after.pending.value.createdAt == before.pending.value.createdAt
    && after.pending.value.lastFailure == Some(failure) && after.lastPayload == before.lastPayload
  }

  /** What a push reports is what it did. It reports a delivery exactly when it has sent and
      the answer was no failure; then the slot is empty and the payload is remembered. After a
      failed send the snapshot stays with the failure. Any other report sends nothing. */
  lemma PushTells(w: World, c: Call)
    requires c.operation.Push? && Uncut(w, c) && NewFor(w, c.operation)
    ensures var (w', r, env) := (Perform(w, c), Answered(w, c), c.operation.env);
      var s := Slotted(w.config, w.store, c.operation.retry, c.operation.automatic, env);
      && w'.config == w.config && w'.store.digest == Some(w.config)
      && (r.Ok? && r.value.status == Delivered <==> w'.sends != w.sends && env.answer.None?)
      && (w'.sends != w.sends ==>
            && s.pending.Some? && SendsOne(w, w', s.pending.value.snapshot)
            && r.Ok? && r.value.snapshotId == Some(s.pending.value.snapshot.snapshotId) && r.value.failure == env.answer
            && match env.answer
               case None => w'.store.pending.None? && w'.store.lastPayload == Some(s.pending.value.snapshot.payload)
               case Some(f) => r.value.status == Failed && KeepsFailed(s, w'.store, s.pending.value.snapshot, f))
      && (w'.sends == w.sends ==> w'.store == s)
  {
    UncutIsDone(w, c);
    PushEnds(w, c.operation.retry, c.operation.automatic, c.operation.env);
  }

  /** Why a push sends nothing, as its report says: it is off, there is nothing to retry, the
      payload is known, the snapshot waits for its time, or it is given up. */
  lemma SilentPushTells(w: World, c: Call)
    requires c.operation.Push? && Uncut(w, c) && NewFor(w, c.operation)
    requires Perform(w, c).sends == w.sends && Answered(w, c).Ok?
    ensures var (s, r, env) := (Perform(w, c).store, Answered(w, c).value, c.operation.env);
      match r.status
      case IsDisabled => PushIsOff(w.config, c.operation.automatic)
      case Empty => c.operation.retry && s.pending.None?
      case Unchanged => c.operation.automatic && s.pending.None? && s.lastPayload == Some(env.payload)
      case Deferred => s.pending.Some? && !GivenUp(w.config, s.pending.value) && s.pending.value.nextAttemptAt > env.checkedAt
      case Failed =>
        && s.pending.Some? && GivenUp(w.config, s.pending.value)
        && r.snapshotId == Some(s.pending.value.snapshot.snapshotId) && r.failure == s.pending.value.lastFailure
      case Delivered => false
  {
    UncutIsDone(w, c);
    PushEnds(w, c.operation.retry, c.operation.automatic, c.operation.env);
    assert !SendsNow(w.config, w.store, c.operation.retry, c.operation.automatic, c.operation.env);
  }

  lemma UncutIsDone(w: World, c: Call)
    requires c.operation.Push? && Uncut(w, c)
    ensures Perform(w, c)
      == DoAll(w, PushEffects(w.config, w.store, c.operation.retry, c.operation.automatic, c.operation.env))
  {
    var effects := Effects(w, c.operation);
    assert effects[..|effects|] == effects;
  }

  // ----- a snapshot that has left the slot

  /** The snapshot is not in the slot and older than anything that may still come into it. */
  predicate Past(w: World, n: Snapshot) {
    n.sequence <= w.store.sequence && (w.store.pending.Some? ==> n.sequence < w.store.pending.value.snapshot.sequence)
  }

  /** All sends of `w'` beyond those of `w` are of newer snapshots. */
  ghost predicate SendsNewer(w: World, w': World, n: Snapshot) {
    && w.sends <= w'.sends
    && forall i :: |w.sends| <= i < |w'.sends| ==> n.sequence < w'.sends[i].snapshot.sequence
  }

  lemma {:induction false} EffectsStayPast(w: World, effects: seq<Effect>, cut: nat, n: Snapshot)
    requires FitAll(w, effects) && Past(w, n) && cut <= |effects|
    ensures Past(DoAll(w, effects[..cut]), n) && SendsNewer(w, DoAll(w, effects[..cut]), n)
    decreases |effects|
  {
    if cut > 0 {
      assert effects[..cut][1..] == effects[1..][..cut - 1] && effects[..cut][0] == effects[0];
      EffectsStayPast(Do(w, effects[0]), effects[1..], cut - 1, n);
    }
  }

  lemma CallStaysPast(w: World, c: Call, n: Snapshot)
    requires Past(w, n) && NewFor(w, c.operation)
    ensures Past(Perform(w, c), n) && SendsNewer(w, Perform(w, c), n)
  {
    if !c.operation.Edit? {
      EffectsFit(w, c.operation);
      EffectsStayPast(w, Effects(w, c.operation), Min(c.cut, |Effects(w, c.operation)|), n);
    }
  }

  /** A snapshot that has left the slot, for whatever reason, is never sent again. */
  lemma {:induction false} LeftForGood(w: World, calls: seq<Call>, n: Snapshot)
    requires Past(w, n) && FreshCalls(w, calls)
    ensures SendsNewer(w, PerformAll(w, calls), n)
    decreases |calls|
  {
    if calls != [] {
      CallStaysPast(w, calls[0], n);
      FreshAfterCall(w, calls);
      LeftForGood(Perform(w, calls[0]), calls[1..], n);
    }
  }

  // ----- delivery

  /** The world after a history from the first installation on. */
  function After(config: Configuration, calls: seq<Call>): World {
    PerformAll(World(config, INITIAL, [], []), calls)
  }

  lemma {:induction false} HistoryInTwo(w: World, a: seq<Call>, b: seq<Call>)
    requires Inv(w) && FreshCalls(w, a + b)
    ensures PerformAll(w, a + b) == PerformAll(PerformAll(w, a), b)
    ensures Inv(PerformAll(w, a)) && FreshCalls(PerformAll(w, a), b)
    decreases |a|
  {
    if a == [] {
      assert a + b == b;
    } else {
      assert (a + b)[1..] == a[1..] + b && (a + b)[0] == a[0];
      assert NewFor(w, (a + b)[0].operation);
      CallKeepsInv(w, a[0]);
      FreshAfterCall(w, a + b);
      HistoryInTwo(Perform(w, a[0]), a[1..], b);
    }
  }

  /** A history up to a call, the call, and what comes later. */
  lemma HistoryAround(config: Configuration, earlier: seq<Call>, c: Call, later: seq<Call>)
    requires FreshCalls(World(config, INITIAL, [], []), earlier + ([c] + later))
    ensures var w := After(config, earlier);
      && Inv(w) && NewFor(w, c.operation) && Inv(Perform(w, c)) && FreshCalls(Perform(w, c), later)
      && After(config, earlier + ([c] + later)) == PerformAll(Perform(w, c), later)
  {
    StartIsGood(config);
    HistoryInTwo(World(config, INITIAL, [], []), earlier, [c] + later);
    var w := After(config, earlier);
    assert ([c] + later)[1..] == later && ([c] + later)[0] == c;
    assert NewFor(w, ([c] + later)[0].operation);
    CallKeepsInv(w, c);
    FreshAfterCall(w, [c] + later);
  }

  /** Delivered is delivered: after a push that reports it the slot is empty, and whatever is
      done, edited or interrupted later, that snapshot is not sent again. */
  lemma DeliveredForGood(config: Configuration, earlier: seq<Call>, c: Call, later: seq<Call>)
    requires FreshCalls(World(config, INITIAL, [], []), earlier + ([c] + later))
    requires var w := After(config, earlier);
      c.operation.Push? && Uncut(w, c) && Answered(w, c).Ok? && Answered(w, c).value.status == Delivered
    ensures var w := After(config, earlier); var w1 := Perform(w, c);
      && |w1.sends| == |w.sends| + 1 && w1.store.pending.None?
      && var n := w1.sends[|w.sends|].snapshot;
      && Answered(w, c).value.snapshotId == Some(n.snapshotId) && w1.store.lastPayload == Some(n.payload)
      && var sends := After(config, earlier + ([c] + later)).sends;
      w1.sends <= sends && forall i :: |w1.sends| <= i < |sends| ==> sends[i].snapshot != n
  {
    HistoryAround(config, earlier, c, later);
    var w := After(config, earlier);
    var w1 := Perform(w, c);
    PushTells(w, c);
    var n := w1.sends[|w.sends|].snapshot;
    SentWasMade(w1, |w.sends|);
    LeftForGood(w1, later, n);
  }

  lemma SentWasMade(w: World, i: nat)
    requires Inv(w) && i < |w.sends|
    ensures w.sends[i].snapshot.sequence <= w.store.sequence
  {
    var k :| 0 <= k < |w.made| && w.made[k] == Made(w.sends[i].snapshot, w.sends[i].config);
  }

  // ----- nothing new to tell

  /** A look, an automatic push that finds this payload, a request to retry, or an edit that
      leaves the configuration as it is. */
  predicate Quiet(config: Configuration, payload: string, o: Operation) {
    match o
    case Edit(edited) => edited == config
    case Look(_) => true
    case Preview(_) => false
    case Push(retry, automatic, env) => retry || (automatic && env.payload == payload)
  }

  /** The slot is empty, and this payload was the last one delivered under the configuration. */
  predicate Told(w: World, payload: string) {
    w.store.pending.None? && w.store.digest == Some(w.config) && w.store.lastPayload == Some(payload)
  }

  /** What a push reports then. */
  function QuietStatus(config: Configuration, o: Operation): Status
    requires o.Push?
  {
    if PushIsOff(config, o.automatic) then IsDisabled else if o.retry then Empty else Unchanged
  }

  lemma QuietCall(w: World, c: Call, payload: string)
    requires Told(w, payload) && Quiet(w.config, payload, c.operation)
    ensures Perform(w, c) == w
    ensures c.operation.Push? ==> Answered(w, c).Ok?
    ensures c.operation.Push? ==> Answered(w, c).value.status == QuietStatus(w.config, c.operation)
  {
    if !c.operation.Edit? {
      assert Effects(w, c.operation) == [];
    }
  }

  /** As long as there is nothing new to tell, nothing happens at all: nothing is prepared, sent
      or even stored, and an automatic push says so. */
  lemma {:induction false} QuietHistory(w: World, calls: seq<Call>, payload: string)
    requires Told(w, payload) && forall i :: 0 <= i < |calls| ==> Quiet(w.config, payload, calls[i].operation)
    ensures PerformAll(w, calls) == w
    decreases |calls|
  {
    if calls != [] {
      QuietCall(w, calls[0], payload);
      QuietHistory(w, calls[1..], payload);
    }
  }

  /** After a delivery, automatic pushes that find the same payload report `unchanged` and
      neither prepare nor send anything. */
  lemma {:induction false} DeliveredIsNotRepeated(w: World, c: Call, payload: string, later: seq<Call>, again: Call)
    requires NewFor(w, c.operation) && c.operation.Push? && Uncut(w, c)
    requires Answered(w, c).Ok? && Answered(w, c).value.status == Delivered
    requires |Perform(w, c).sends| > |w.sends| ==> Perform(w, c).sends[|w.sends|].snapshot.payload == payload
    requires forall i :: 0 <= i < |later| ==> Quiet(w.config, payload, later[i].operation)
    requires again.operation.Push? && !again.operation.retry && again.operation.automatic
    requires again.operation.env.payload == payload && w.config.mode == AfterWorkflow
    ensures var w1 := Perform(w, c); var w2 := PerformAll(w1, later);
      && |w1.sends| == |w.sends| + 1 && w2 == w1 && Perform(w2, again) == w1
      && Answered(w2, again).Ok? && Answered(w2, again).value.status == Unchanged
  {
    PushTells(w, c);
    var w1 := Perform(w, c);
    QuietHistory(w1, later, payload);
    QuietCall(w1, again, payload);
  }

  /** And something new is told: with an empty slot a push that is on sends exactly unless it
      is automatic and the payload is the last one delivered, the snapshot is too large, or no
      attempt is allowed; what it sends has that payload and the next number. */
  lemma NewPayloadIsSent(w: World, c: Call)
    requires c.operation.Push? && Uncut(w, c) && NewFor(w, c.operation) && !c.operation.retry
    requires Stale(w, c.operation.env.syncedAt) && !PushIsOff(w.config, c.operation.automatic)
    ensures var (w', env) := (Perform(w, c), c.operation.env);
      var known := w.store.digest == Some(w.config) && w.store.lastPayload == Some(env.payload);
      && (Answered(w, c) == Err(ExportTooLarge) <==>
            !(c.operation.automatic && known) && env.size > w.config.delivery.maxBytes)
      && (w'.sends != w.sends <==>
            && !(c.operation.automatic && known) && env.size <= w.config.delivery.maxBytes
            && w.config.delivery.maxAttempts > 0 && env.checkedAt >= 0)
      && (w'.sends != w.sends ==>
            && |w'.sends| == |w.sends| + 1 && w'.sends[|w.sends|].config == w.config
            && var n := w'.sends[|w.sends|].snapshot;
            && n.payload == env.payload && n.sequence == w.store.sequence + 1 && n.snapshotId == env.newSnapshot
            && (w.store.sourceId.Some? ==> w.store.sourceId == Some(n.sourceId)))
  {
    SynchronizationLeaves(w, c.operation.env.syncedAt);
    UncutIsDone(w, c);
    PushEnds(w, c.operation.retry, c.operation.automatic, c.operation.env);
  }

  /** With a snapshot waiting that is not stale, a push that is on sends that very snapshot, and
      does so exactly if it is asked to retry or the snapshot is not given up and its time has
      come. It prepares no other. */
  lemma WaitingIsSent(w: World, c: Call)
    requires c.operation.Push? && Uncut(w, c) && NewFor(w, c.operation) && !PushIsOff(w.config, c.operation.automatic)
    requires w.store.pending.Some? && !Stale(w, c.operation.env.syncedAt)
    ensures var (w', p) := (Perform(w, c), w.store.pending.value);
      && (w'.sends != w.sends <==>
            || c.operation.retry
            || (p.attempts < w.config.delivery.maxAttempts && p.lastFailure != Some(Permanent)
                && p.nextAttemptAt <= c.operation.env.checkedAt))
      && (w'.sends != w.sends ==> SendsOne(w, w', p.snapshot))
      && (w'.sends == w.sends ==> w'.store == w.store)
  {
    SynchronizationLeaves(w, c.operation.env.syncedAt);
    UncutIsDone(w, c);
    PushEnds(w, c.operation.retry, c.operation.automatic, c.operation.env);
  }

  /** A preview sends nothing. It leaves a snapshot in the slot exactly if exporting is enabled and
      either a snapshot waits that is not stale, and then it leaves that, or a new one is small
      enough; `WaitingIsSent` says that this is what a push then sends. */
  lemma PreviewLeaves(w: World, env: Env, cut: nat)
    requires IsNew(w, env.newSnapshot) && cut >= |PreviewEffects(w.config, w.store, env)| && w.config.mode != Disabled
    ensures var w' := Perform(w, Call(Preview(env), cut));
      && w'.sends == w.sends && w'.config == w.config && w'.store.digest == Some(w.config)
      && if w.store.pending.Some? && !Stale(w, env.syncedAt) then w'.store.pending == w.store.pending
         else if env.size > w.config.delivery.maxBytes then w'.store.pending.None?
         else
           && w'.store.pending.Some?
           && var p := w'.store.pending.value;
           && p.snapshot.payload == env.payload && p.snapshot.sequence == w.store.sequence + 1
           && p.snapshot.snapshotId == env.newSnapshot && p.attempts == 0
  {
    var effects, sync := PreviewEffects(w.config, w.store, env), SyncEffects(w.config, env.syncedAt, w.store);
    assert effects[..|effects|] == effects;
    SynchronizationLeaves(w, env.syncedAt);
    SyncFits(w, env.syncedAt);
    var w1 := w.(store := Synchronize(w.config, env.syncedAt, w.store));
    var r := Prepare(w.config, w1.store, false, env);
    if r.Ok? {
      PrepareFits(w1, r.value, false, env);
      PrepareSends(w1, r.value);
      DoConcat(w, sync, PrepareEffects(w1.store, r.value));
    } else {
      assert sync + [] == sync;
    }
  }

  // ----- refusals that are for good

  /** The snapshot is in the slot with a permanent failure, or has left it. */
  predicate Refused(w: World, n: Snapshot) {
    || Past(w, n)
    || (w.store.pending.Some? && w.store.pending.value.snapshot == n && n.sequence == w.store.sequence
        && w.store.pending.value.lastFailure == Some(Permanent))
  }

  lemma {:induction false} SteadyStaysRefused(w: World, effects: seq<Effect>, cut: nat, n: Snapshot)
    requires AllSteady(w, effects) && Refused(w, n) && cut <= |effects|
    ensures Refused(DoAll(w, effects[..cut]), n) && DoAll(w, effects[..cut]).sends == w.sends
    decreases |effects|
  {
    if cut > 0 {
      assert effects[..cut][1..] == effects[1..][..cut - 1] && effects[..cut][0] == effects[0];
      SteadyStaysRefused(Do(w, effects[0]), effects[1..], cut - 1, n);
    }
  }

  lemma PushStaysRefused(w: World, c: Call, n: Snapshot)
    requires Refused(w, n) && NewFor(w, c.operation) && c.operation.Push? && !c.operation.retry
    ensures Refused(Perform(w, c), n) && SendsNewer(w, Perform(w, c), n)
  {
    var pre, rest := PushInTwo(w, false, c.operation.automatic, c.operation.env);
    CutStaysRefused(w, pre, rest, c.operation.env, Min(c.cut, |pre| + |rest|), n);
  }

  lemma CutStaysRefused(w: World, pre: seq<Effect>, rest: seq<Effect>, env: Env, cut: nat, n: Snapshot)
    requires Refused(w, n) && AllSteady(w, pre) && (rest == [] || IsSend(DoAll(w, pre), false, env, rest))
    requires cut <= |pre| + |rest|
    ensures Refused(DoAll(w, (pre + rest)[..cut]), n) && SendsNewer(w, DoAll(w, (pre + rest)[..cut]), n)
  {
    CutInTwo(w, pre, rest, cut);
    if cut <= |pre| {
      SteadyStaysRefused(w, pre, cut, n);
    } else {
      assert pre[..|pre|] == pre;
      SteadyStaysRefused(w, pre, |pre|, n);
      RefusedIsNotSent(DoAll(w, pre), env, rest, n);
      EffectsStayPast(DoAll(w, pre), rest, cut - |pre|, n);
    }
  }

  lemma RefusedIsNotSent(w: World, env: Env, rest: seq<Effect>, n: Snapshot)
    requires Refused(w, n) && IsSend(w, false, env, rest)
    ensures Past(w, n) && FitAll(w, rest)
  {
    SendFits(w, false, env);
  }

  lemma CallStaysRefused(w: World, c: Call, n: Snapshot)
    requires Refused(w, n) && NewFor(w, c.operation) && !(c.operation.Push? && c.operation.retry)
    ensures Refused(Perform(w, c), n) && SendsNewer(w, Perform(w, c), n)
  {
    match c.operation
    case Edit(_) =>
    case Look(env) =>
      SyncIsSteady(w, env.syncedAt);
      SteadyStaysRefused(w, Effects(w, c.operation), Min(c.cut, |Effects(w, c.operation)|), n);
    case Preview(env) =>
      PreviewIsSteady(w, env);
      SteadyStaysRefused(w, Effects(w, c.operation), Min(c.cut, |Effects(w, c.operation)|), n);
    case Push(_, _, _) => PushStaysRefused(w, c, n);
  }

  lemma {:induction false} StaysRefused(w: World, calls: seq<Call>, n: Snapshot)
    requires Refused(w, n) && FreshCalls(w, calls)
    requires forall i :: 0 <= i < |calls| ==> !(calls[i].operation.Push? && calls[i].operation.retry)
    ensures SendsNewer(w, PerformAll(w, calls), n)
    decreases |calls|
  {
    if calls != [] {
      CallStaysRefused(w, calls[0], n);
      FreshAfterCall(w, calls);
      StaysRefused(Perform(w, calls[0]), calls[1..], n);
    }
  }

  /** A permanent failure is final until somebody asks for a retry: after a push that reports
      one, nothing else sends that snapshot again. */
  lemma PermanentIsFinal(config: Configuration, earlier: seq<Call>, c: Call, later: seq<Call>)
    requires FreshCalls(World(config, INITIAL, [], []), earlier + ([c] + later))
    requires forall i :: 0 <= i < |later| ==> !(later[i].operation.Push? && later[i].operation.retry)
    requires var w := After(config, earlier);
      && c.operation.Push? && Uncut(w, c) && Answered(w, c).Ok? && Answered(w, c).value.status == Failed
      && Answered(w, c).value.failure == Some(Permanent)
    ensures var w1 := Perform(After(config, earlier), c);
      && w1.store.pending.Some?
      && var n := w1.store.pending.value.snapshot;
      && Answered(After(config, earlier), c).value.snapshotId == Some(n.snapshotId)
      && var sends := After(config, earlier + ([c] + later)).sends;
      w1.sends <= sends && forall i :: |w1.sends| <= i < |sends| ==> sends[i].snapshot != n
  {
    HistoryAround(config, earlier, c, later);
    var w := After(config, earlier);
    PushTells(w, c);
    if Perform(w, c).sends == w.sends { SilentPushTells(w, c); }
    StaysRefused(Perform(w, c), later, Perform(w, c).store.pending.value.snapshot);
  }

  // ----- stale snapshots

  lemma StalePush(w: World, c: Call)
    requires Inv(w) && NewFor(w, c.operation) && c.operation.Push? && w.store.pending.Some?
    requires Stale(w, c.operation.env.syncedAt) && Uncut(w, c)
    ensures var (w', n) := (Perform(w, c), w.store.pending.value.snapshot);
      Past(w', n) && w.sends <= w'.sends && |w'.sends| <= |w.sends| + 1
      && (|w'.sends| > |w.sends| ==> n.sequence < w'.sends[|w.sends|].snapshot.sequence)
  {
    SynchronizationLeaves(w, c.operation.env.syncedAt);
    UncutIsDone(w, c);
    PushEnds(w, c.operation.retry, c.operation.automatic, c.operation.env);
  }

  /** A snapshot that is stale when a push begins is not sent by it, and, if the push is not
      interrupted, never again. */
  lemma StaleIsNotSent(w: World, c: Call, later: seq<Call>)
    requires Inv(w) && FreshCalls(w, [c] + later) && c.operation.Push? && w.store.pending.Some?
    requires Stale(w, c.operation.env.syncedAt) && Uncut(w, c)
    ensures SendsNewer(w, PerformAll(w, [c] + later), w.store.pending.value.snapshot)
  {
    var n, calls := w.store.pending.value.snapshot, [c] + later;
    assert calls[1..] == later && calls[0] == c;
    assert NewFor(w, calls[0].operation);
    FreshAfterCall(w, calls);
    StalePush(w, c);
    LeftForGood(Perform(w, c), later, n);
  }
}
