/** What holds of an outbox over every history of operations, crashes and hand edits. */
module OutboxHistory {
  import opened Prelude
  import opened Outbox

  // ----- what any effect may do

  ghost predicate IsNew(w: World, id: Id) {
    forall i :: 0 <= i < |w.made| ==> w.made[i].snapshot.snapshotId != id
  }

  /** An effect that fits the stored state. */
  ghost predicate Fits(w: World, e: Effect) {
    match e
    case Saved(s) =>
      && s.sourceId == w.store.sourceId && s.sequence == w.store.sequence
      && (s.pending.Some? ==>
        && w.store.pending.Some? && s.pending.value.snapshot == w.store.pending.value.snapshot
        && s.digest == w.store.digest)
    case Prepared(s) =>
      && s.pending.Some? && s.digest.Some? && w.store.pending.None?
      && var n := s.pending.value.snapshot;
      && s.sourceId == Some(n.sourceId) && (w.store.sourceId.Some? ==> s.sourceId == w.store.sourceId)
      && n.sequence == s.sequence == w.store.sequence + 1 && IsNew(w, n.snapshotId)
    case Send(x) =>
      && w.store.pending.Some? && w.store.pending.value.snapshot == x.snapshot && w.store.digest == Some(x.config)
  }

  ghost predicate FitAll(w: World, effects: seq<Effect>)
    decreases |effects|
  {
    effects == [] || (Fits(w, effects[0]) && FitAll(Do(w, effects[0]), effects[1..]))
  }

  // ----- the invariant

  ghost predicate MadeInOrder(made: seq<Made>) {
    forall i, j :: 0 <= i < j < |made| ==>
      && made[i].snapshot.sequence < made[j].snapshot.sequence
      && made[i].snapshot.snapshotId != made[j].snapshot.snapshotId
  }

  ghost predicate MadeHere(made: seq<Made>, store: ExportState) {
    forall i :: 0 <= i < |made| ==>
      made[i].snapshot.sequence <= store.sequence && store.sourceId == Some(made[i].snapshot.sourceId)
  }

  predicate SlotIsNewest(made: seq<Made>, store: ExportState) {
    store.pending.Some? ==>
      && store.digest.Some? && made != []
      && made[|made| - 1] == Made(store.pending.value.snapshot, store.digest.value)
      && store.pending.value.snapshot.sequence == store.sequence
  }

  ghost predicate SendsWereMade(made: seq<Made>, sends: seq<Sent>) {
    forall i :: 0 <= i < |sends| ==> Made(sends[i].snapshot, sends[i].config) in made
  }

  ghost predicate SendsInOrder(sends: seq<Sent>) {
    forall i, j :: 0 <= i <= j < |sends| ==> sends[i].snapshot.sequence <= sends[j].snapshot.sequence
  }

  ghost predicate Inv(w: World) {
    && MadeInOrder(w.made) && MadeHere(w.made, w.store) && SlotIsNewest(w.made, w.store)
    && SendsWereMade(w.made, w.sends) && SendsInOrder(w.sends)
  }

  lemma EffectKeepsInv(w: World, e: Effect)
    requires Inv(w) && Fits(w, e)
    ensures Inv(Do(w, e))
  {
    match e
    case Saved(_) =>
    case Prepared(s) =>
      var w' := Do(w, e);
      forall i | 0 <= i < |w'.made| ensures w'.made[i].snapshot.sequence <= s.sequence
        ensures s.sourceId == Some(w'.made[i].snapshot.sourceId)
      {
        if i < |w.made| { assert w'.made[i] == w.made[i]; }
      }
      forall i | 0 <= i < |w.sends| ensures Made(w.sends[i].snapshot, w.sends[i].config) in w'.made {
        assert Made(w.sends[i].snapshot, w.sends[i].config) in w.made;
      }
    case Send(x) =>
      var w' := Do(w, e);
      assert w.made[|w.made| - 1] in w.made;
      forall i | 0 <= i < |w'.sends| ensures Made(w'.sends[i].snapshot, w'.sends[i].config) in w.made
        ensures w'.sends[i].snapshot.sequence <= x.snapshot.sequence
      {
        if i < |w.sends| {
          assert w'.sends[i] == w.sends[i];
          var k :| 0 <= k < |w.made| && w.made[k] == Made(w.sends[i].snapshot, w.sends[i].config);
        }
      }
  }

  lemma {:induction false} EffectsKeepInv(w: World, effects: seq<Effect>, cut: nat)
    requires Inv(w) && FitAll(w, effects) && cut <= |effects|
    ensures Inv(DoAll(w, effects[..cut]))
    decreases |effects|
  {
    if cut > 0 {
      EffectKeepsInv(w, effects[0]);
      EffectsKeepInv(Do(w, effects[0]), effects[1..], cut - 1);
      assert effects[..cut][1..] == effects[1..][..cut - 1] && effects[..cut][0] == effects[0];
    }
  }

  // ----- the operations' effects fit

  lemma {:induction false} FitConcat(w: World, a: seq<Effect>, b: seq<Effect>)
    requires FitAll(w, a) && FitAll(DoAll(w, a), b)
    ensures FitAll(w, a + b) && DoAll(w, a + b) == DoAll(DoAll(w, a), b)
    decreases |a|
  {
    if a == [] {
      assert a + b == b;
    } else {
      assert (a + b)[1..] == a[1..] + b;
      FitConcat(Do(w, a[0]), a[1..], b);
    }
  }

  lemma FitOne(w: World, e: Effect)
    requires Fits(w, e)
    ensures FitAll(w, [e]) && DoAll(w, [e]) == Do(w, e)
  {
    assert [e][1..] == [];
  }

  /** Synchronizing leaves the stored state synchronized with the configuration. */
  lemma SyncFits(w: World, now: Time)
    ensures FitAll(w, SyncEffects(w.config, now, w.store))
    ensures DoAll(w, SyncEffects(w.config, now, w.store)) == w.(store := Synchronize(w.config, now, w.store))
    ensures Synchronize(w.config, now, w.store).digest == Some(w.config)
  {
    var s1 := SyncDigest(w.config, w.store);
    var s2 := Expire(w.config, now, s1);
    var w1 := w.(store := s1);
    if s1 != w.store { FitOne(w, Saved(s1)); }
    if s2 != s1 { FitOne(w1, Saved(s2)); }
    FitConcat(w, SaveIfNew(w.store, s1), SaveIfNew(s1, s2));
  }

  /** What `Prepare` stores, and what it leaves in the slot. */
  lemma PrepareFits(w: World, s2: ExportState, automatic: bool, env: Env)
    requires w.store.digest == Some(w.config) && IsNew(w, env.newSnapshot)
    requires Prepare(w.config, w.store, automatic, env) == Ok(s2)
    ensures FitAll(w, PrepareEffects(w.store, s2))
    ensures var w' := DoAll(w, PrepareEffects(w.store, s2)); w'.store == s2 && w'.config == w.config
    ensures s2.digest == Some(w.config)
  {
    if s2 != w.store { FitOne(w, Prepared(s2)); }
  }

  lemma SendFits(w: World, retry: bool, env: Env)
    requires w.store.digest == Some(w.config) && w.store.pending.Some?
    ensures FitAll(w, SendEffects(w.config, w.store, w.store.pending.value, retry, env))
  {
    var p := w.store.pending.value;
    if MaySend(w.config, p, retry, env.checkedAt) {
      var send := Send(Sent(p.snapshot, w.config, retry, env.checkedAt, env.answeredAt));
      var save := Saved(AnswerState(w.config, w.store, p, env));
      FitOne(w, send);
      FitOne(Do(w, send), save);
      FitConcat(w, [send], [save]);
      assert [send] + [save] == [send, save];
    }
  }

  function NewIdOf(o: Operation): Option<Id> {
    match o
    case Edit(_) => None
    case Look(env) => None
    case Preview(env) => Some(env.newSnapshot)
    case Push(_, _, env) => Some(env.newSnapshot)
  }

  ghost predicate NewFor(w: World, o: Operation) {
    NewIdOf(o).Some? ==> IsNew(w, NewIdOf(o).value)
  }

  lemma PushFits(w: World, retry: bool, automatic: bool, env: Env)
    requires IsNew(w, env.newSnapshot)
    ensures FitAll(w, PushEffects(w.config, w.store, retry, automatic, env))
  {
    SyncFits(w, env.syncedAt);
    var s1 := Synchronize(w.config, env.syncedAt, w.store);
    var w1 := w.(store := s1);
    if !(PushIsOff(w.config, automatic) || (retry && s1.pending.None?)) {
      var r := Prepare(w.config, s1, automatic, env);
      if r.Ok? {
        var sync, prep := SyncEffects(w.config, env.syncedAt, w.store), PrepareEffects(s1, r.value);
        PrepareFits(w1, r.value, automatic, env);
        if r.value.pending.Some? {
          SendFits(DoAll(w1, prep), retry, env);
          FitConcat(w1, prep, SendEffects(w.config, r.value, r.value.pending.value, retry, env));
        } else {
          assert prep + [] == prep;
        }
        FitConcat(w, sync, FillEffects(w.config, s1, retry, automatic, env));
      } else {
        assert SyncEffects(w.config, env.syncedAt, w.store) + [] == SyncEffects(w.config, env.syncedAt, w.store);
      }
    }
  }

  lemma PreviewFits(w: World, env: Env)
    requires IsNew(w, env.newSnapshot)
    ensures FitAll(w, PreviewEffects(w.config, w.store, env))
  {
    SyncFits(w, env.syncedAt);
    var s1 := Synchronize(w.config, env.syncedAt, w.store);
    var sync := SyncEffects(w.config, env.syncedAt, w.store);
    var r := Prepare(w.config, s1, false, env);
    if r.Ok? {
      PrepareFits(w.(store := s1), r.value, false, env);
      FitConcat(w, sync, PrepareEffects(s1, r.value));
    } else {
      assert sync + [] == sync;
    }
  }

  lemma EffectsFit(w: World, o: Operation)
    requires NewFor(w, o)
    ensures FitAll(w, Effects(w, o))
  {
    match o
    case Edit(_) =>
    case Look(env) => SyncFits(w, env.syncedAt);
    case Preview(env) => PreviewFits(w, env);
    case Push(retry, automatic, env) => PushFits(w, retry, automatic, env);
  }

  lemma CallKeepsInv(w: World, c: Call)
    requires Inv(w) && NewFor(w, c.operation)
    ensures Inv(Perform(w, c))
  {
    if !c.operation.Edit? {
      EffectsFit(w, c.operation);
      EffectsKeepInv(w, Effects(w, c.operation), Min(c.cut, |Effects(w, c.operation)|));
    }
  }

  // ----- histories with fresh identifiers

  /** No two operations are given the same new identifier, and none an identifier in use. */
  ghost predicate FreshCalls(w: World, calls: seq<Call>) {
    && (forall i :: 0 <= i < |calls| ==> NewFor(w, calls[i].operation))
    && (forall i, j :: 0 <= i < j < |calls| && NewIdOf(calls[i].operation).Some? ==>
        NewIdOf(calls[i].operation) != NewIdOf(calls[j].operation))
  }

  ghost predicate Grown(w: World, w': World, id: Option<Id>) {
    && w.made <= w'.made && w.sends <= w'.sends
    && (w.store.sourceId.Some? ==> w'.store.sourceId == w.store.sourceId)
    && forall i :: |w.made| <= i < |w'.made| ==> Some(w'.made[i].snapshot.snapshotId) == id
  }

  ghost predicate UsesOnly(effects: seq<Effect>, id: Option<Id>) {
    forall i :: 0 <= i < |effects| && effects[i].Prepared? && effects[i].state.pending.Some? ==>
      Some(effects[i].state.pending.value.snapshot.snapshotId) == id
  }

  lemma {:induction false} EffectsGrow(w: World, effects: seq<Effect>, cut: nat, id: Option<Id>)
    requires FitAll(w, effects) && UsesOnly(effects, id) && cut <= |effects|
    ensures Grown(w, DoAll(w, effects[..cut]), id)
    decreases |effects|
  {
    if cut > 0 {
      assert effects[..cut][1..] == effects[1..][..cut - 1] && effects[..cut][0] == effects[0];
      EffectsGrow(Do(w, effects[0]), effects[1..], cut - 1, id);
    }
  }

  lemma EffectsUseOnly(w: World, o: Operation)
    ensures UsesOnly(Effects(w, o), NewIdOf(o))
  {
  }

  lemma CallGrows(w: World, c: Call)
    requires NewFor(w, c.operation)
    ensures Grown(w, Perform(w, c), NewIdOf(c.operation))
  {
    if !c.operation.Edit? {
      EffectsFit(w, c.operation);
      EffectsUseOnly(w, c.operation);
      EffectsGrow(w, Effects(w, c.operation), Min(c.cut, |Effects(w, c.operation)|), NewIdOf(c.operation));
    }
  }

  lemma FreshAfterCall(w: World, calls: seq<Call>)
    requires FreshCalls(w, calls) && calls != []
    ensures FreshCalls(Perform(w, calls[0]), calls[1..])
  {
    var w' := Perform(w, calls[0]);
    CallGrows(w, calls[0]);
    forall i | 0 <= i < |calls[1..]| ensures NewFor(w', calls[1..][i].operation) {
      var id := NewIdOf(calls[i + 1].operation);
      assert NewFor(w, calls[i + 1].operation);
      if id.Some? {
        forall k | 0 <= k < |w'.made| ensures w'.made[k].snapshot.snapshotId != id.value {
          if k < |w.made| { assert w'.made[k] == w.made[k]; }
        }
      }
    }
  }

  lemma {:induction false} HistoryKeepsInv(w: World, calls: seq<Call>)
    requires Inv(w) && FreshCalls(w, calls)
    ensures Inv(PerformAll(w, calls))
    decreases |calls|
  {
    if calls != [] {
      CallKeepsInv(w, calls[0]);
      FreshAfterCall(w, calls);
      HistoryKeepsInv(Perform(w, calls[0]), calls[1..]);
    }
  }

  lemma StartIsGood(config: Configuration)
    ensures Inv(World(config, INITIAL, [], []))
  {
  }

  // ----- what receivers can rely on

  /** All sends of one snapshot carry the same body, under the configuration it was prepared
      under. */
  lemma SameIdSameBody(config: Configuration, calls: seq<Call>, i: nat, j: nat)
    requires var w := World(config, INITIAL, [], []);
      FreshCalls(w, calls) && i < |PerformAll(w, calls).sends| && j < |PerformAll(w, calls).sends|
    ensures var sends := PerformAll(World(config, INITIAL, [], []), calls).sends;
      sends[i].snapshot.snapshotId == sends[j].snapshot.snapshotId ==>
        sends[i].snapshot == sends[j].snapshot && sends[i].config == sends[j].config
  {
    StartIsGood(config);
    HistoryKeepsInv(World(config, INITIAL, [], []), calls);
    SendsAreOrderly(PerformAll(World(config, INITIAL, [], []), calls), i, j);
  }

  lemma SendsAreOrderly(w: World, i: nat, j: nat)
    requires Inv(w) && i < |w.sends| && j < |w.sends|
    ensures var a, b := w.sends[i], w.sends[j];
      && ((a.snapshot.snapshotId == b.snapshot.snapshotId) == (a.snapshot == b.snapshot))
      && ((a.snapshot.sequence == b.snapshot.sequence) == (a.snapshot == b.snapshot))
      && (a.snapshot == b.snapshot ==> a.config == b.config)
      && (i < j && a.snapshot != b.snapshot ==> a.snapshot.sequence < b.snapshot.sequence)
      && a.snapshot.sourceId == b.snapshot.sourceId
  {
    var a, b := w.sends[i], w.sends[j];
    var k :| 0 <= k < |w.made| && w.made[k] == Made(a.snapshot, a.config);
    var m :| 0 <= m < |w.made| && w.made[m] == Made(b.snapshot, b.config);
    if k < m || m < k {
      assert w.made[k].snapshot.sequence != w.made[m].snapshot.sequence;
    }
    if i < j {
      assert a.snapshot.sequence <= b.snapshot.sequence;
    }
  }

  /** Snapshots leave in the order of their sequence numbers, each number once. */
  lemma SequencesIncrease(config: Configuration, calls: seq<Call>, i: nat, j: nat)
    requires var w := World(config, INITIAL, [], []); FreshCalls(w, calls) && i < j < |PerformAll(w, calls).sends|
    ensures var sends := PerformAll(World(config, INITIAL, [], []), calls).sends;
      && (sends[i].snapshot == sends[j].snapshot || sends[i].snapshot.sequence < sends[j].snapshot.sequence)
      && sends[i].snapshot.sourceId == sends[j].snapshot.sourceId
  {
    StartIsGood(config);
    HistoryKeepsInv(World(config, INITIAL, [], []), calls);
    SendsAreOrderly(PerformAll(World(config, INITIAL, [], []), calls), i, j);
  }

  /** Nothing prepared under one configuration is sent under another. */
  lemma ConfigurationsAreFenced(config: Configuration, calls: seq<Call>, i: nat, k: nat)
    requires var w := World(config, INITIAL, [], []);
      FreshCalls(w, calls) && i < |PerformAll(w, calls).sends| && k < |PerformAll(w, calls).made|
    ensures var w' := PerformAll(World(config, INITIAL, [], []), calls);
      w'.made[k].snapshot.snapshotId == w'.sends[i].snapshot.snapshotId ==>
        w'.made[k] == Made(w'.sends[i].snapshot, w'.sends[i].config)
  {
    var w := World(config, INITIAL, [], []);
    StartIsGood(config);
    HistoryKeepsInv(w, calls);
    var w' := PerformAll(w, calls);
    var m :| 0 <= m < |w'.made| && w'.made[m] == Made(w'.sends[i].snapshot, w'.sends[i].config);
    assert m < k || k < m ==> w'.made[m].snapshot.snapshotId != w'.made[k].snapshot.snapshotId;
  }

  /** Once stored, the source keeps its identity, whatever happens. */
  lemma {:induction false} SourceIsConstant(w: World, calls: seq<Call>)
    requires FreshCalls(w, calls) && w.store.sourceId.Some?
    ensures PerformAll(w, calls).store.sourceId == w.store.sourceId
    decreases |calls|
  {
    if calls != [] {
      CallGrows(w, calls[0]);
      FreshAfterCall(w, calls);
      SourceIsConstant(Perform(w, calls[0]), calls[1..]);
    }
  }

  // ----- a receiver that keeps the highest sequence number

  function Receive(latest: Option<Snapshot>, n: Snapshot): Option<Snapshot> {
    if latest.None? || latest.value.sequence < n.sequence then Some(n) else latest
  }

  function ReceiveAll(latest: Option<Snapshot>, arrivals: seq<Snapshot>): Option<Snapshot>
    decreases |arrivals|
  {
    if arrivals == [] then latest else ReceiveAll(Receive(latest, arrivals[0]), arrivals[1..])
  }

  /** The receiver ends with an arrived snapshot that none exceeds. */
  lemma {:induction false} ReceiverKeepsHighest(latest: Option<Snapshot>, arrivals: seq<Snapshot>)
    ensures var r := ReceiveAll(latest, arrivals);
      && (r == latest || (r.Some? && r.value in arrivals))
      && (latest.Some? ==> r.Some? && latest.value.sequence <= r.value.sequence)
      && (forall n :: n in arrivals ==> r.Some? && n.sequence <= r.value.sequence)
    decreases |arrivals|
  {
    if arrivals != [] {
      ReceiverKeepsHighest(Receive(latest, arrivals[0]), arrivals[1..]);
      assert forall n :: n in arrivals <==> n == arrivals[0] || n in arrivals[1..];
    }
  }

  /** Lost, repeated and reordered as deliveries may be: once the newest snapshot sent has
      arrived, it is what the receiver has. */
  lemma ReceiverEndsWithNewest(config: Configuration, calls: seq<Call>, arrivals: seq<Snapshot>)
    requires var w := World(config, INITIAL, [], []); var sends := PerformAll(w, calls).sends;
      && FreshCalls(w, calls) && sends != []
      && (forall n :: n in arrivals ==> exists i :: 0 <= i < |sends| && sends[i].snapshot == n)
      && sends[|sends| - 1].snapshot in arrivals
    ensures var sends := PerformAll(World(config, INITIAL, [], []), calls).sends;
      ReceiveAll(None, arrivals) == Some(sends[|sends| - 1].snapshot)
  {
    var w := World(config, INITIAL, [], []);
    StartIsGood(config);
    HistoryKeepsInv(w, calls);
    var w' := PerformAll(w, calls);
    ReceiverKeepsHighest(None, arrivals);
    var r := ReceiveAll(None, arrivals);
    var i :| 0 <= i < |w'.sends| && w'.sends[i].snapshot == r.value;
    SendsAreOrderly(w', i, |w'.sends| - 1);
  }
}
