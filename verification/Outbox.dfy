/** The single-slot export outbox (export_service.py, export_state.py). Every operation is the
    list of its effects, saves of the state and sends, in order; a crash is any cut of that
    list. Digests of configurations and payloads are the values themselves. */
module Outbox {
  import opened Prelude

  type Id = nat

  /** Clock readings in the clock's smallest unit; `SECOND` of them make a second. The epoch
      clock may be set back, so nothing is assumed of two readings. */
  type Time = int

  const SECOND := 1_000_000_000

  datatype Mode = Disabled | Manual | AfterWorkflow

  datatype Delivery = Delivery(maxAttempts: nat, retryInitial: nat, retryMax: nat, retentionDays: nat, maxBytes: nat)

  /** `rest` stands for the fields that only shape the payload and the request. */
  datatype Configuration = Configuration(mode: Mode, delivery: Delivery, rest: string)

  /** `payload` is everything but the identity of the snapshot and the time it was made. */
  datatype Snapshot = Snapshot(snapshotId: Id, sourceId: Id, sequence: nat, payload: string, generatedAt: string)

  datatype Failure = Transient | Permanent

  datatype Pending = Pending(snapshot: Snapshot, createdAt: Time, attempts: nat, nextAttemptAt: Time,
    lastFailure: Option<Failure>)

  datatype ExportState = ExportState(sourceId: Option<Id>, sequence: nat, digest: Option<Configuration>,
    pending: Option<Pending>, lastPayload: Option<string>)

  const INITIAL := ExportState(None, 0, None, None, None)

  /** What an operation meets: clock readings at its four places, fresh identifiers, the report
      of the day with its encoded size, and the answer to a send. */
  datatype Env = Env(syncedAt: Time, createdAt: Time, checkedAt: Time, answeredAt: Time,
    newSource: Id, newSnapshot: Id, payload: string, generatedAt: string, size: nat, answer: Option<Failure>)

  datatype Sent = Sent(snapshot: Snapshot, config: Configuration, retry: bool, at: Time, answeredAt: Time)

  /** `Prepared` is the save that puts a new snapshot into the slot. */
  datatype Effect = Saved(state: ExportState) | Prepared(state: ExportState) | Send(sent: Sent)

  datatype Status = IsDisabled | Delivered | Deferred | Failed | Unchanged | Empty

  datatype Report = Report(status: Status, snapshotId: Option<Id>, failure: Option<Failure>, retryAfter: Time)

  datatype ExportError = ExportDisabled | ExportTooLarge

  // ----- the operations

  /** A changed configuration discards what was prepared under the old one. */
  function SyncDigest(config: Configuration, s: ExportState): ExportState {
    if s.digest != Some(config) then ExportState(s.sourceId, s.sequence, Some(config), None, None) else s
  }

  function Expire(config: Configuration, now: Time, s: ExportState): ExportState {
    if s.pending.Some? && now - s.pending.value.createdAt >= config.delivery.retentionDays * 86400 * SECOND
    then s.(pending := None)
    else s
  }

  function Synchronize(config: Configuration, now: Time, s: ExportState): ExportState {
    Expire(config, now, SyncDigest(config, s))
  }

  function SaveIfNew(s: ExportState, s': ExportState): seq<Effect> {
    if s == s' then [] else [Saved(s')]
  }

  function SyncEffects(config: Configuration, now: Time, s: ExportState): seq<Effect> {
    var s1 := SyncDigest(config, s);
    SaveIfNew(s, s1) + SaveIfNew(s1, Expire(config, now, s1))
  }

  function NewSnapshot(s: ExportState, env: Env): Snapshot {
    Snapshot(env.newSnapshot, if s.sourceId.Some? then s.sourceId.value else env.newSource, s.sequence + 1,
             env.payload, env.generatedAt)
  }

  function Prepare(config: Configuration, s: ExportState, automatic: bool, env: Env): Result<ExportState, ExportError> {
    if config.mode == Disabled then Err(ExportDisabled)
    else if s.pending.Some? then Ok(s)
    else if automatic && s.lastPayload == Some(env.payload) then Ok(s)
    else if env.size > config.delivery.maxBytes then Err(ExportTooLarge)
    else
      var value := NewSnapshot(s, env);
      Ok(s.(sourceId := Some(value.sourceId), sequence := value.sequence,
            pending := Some(Pending(value, env.createdAt, 0, 0, None))))
  }

  function PrepareEffects(s: ExportState, s': ExportState): seq<Effect> {
    if s == s' then [] else [Prepared(s')]
  }

  function Pow2(n: nat): (p: nat)
    ensures p >= 1
  {
    if n == 0 then 1 else 2 * Pow2(n - 1)
  }

  /** The pause after a failure that came after `k` others. */
  function Delay(d: Delivery, k: nat): Time {
    SECOND * Min(d.retryMax, d.retryInitial * Pow2(Min(k, 20)))
  }

  function AfterFailure(config: Configuration, p: Pending, failure: Failure, now: Time): Pending {
    Pending(p.snapshot, p.createdAt, p.attempts + 1, now + Delay(config.delivery, p.attempts), Some(failure))
  }

  /** Attempts are used up, or the receiver refused for good: only an explicit retry sends. */
  predicate GivenUp(config: Configuration, p: Pending) {
    p.attempts >= config.delivery.maxAttempts || p.lastFailure == Some(Permanent)
  }

  predicate MaySend(config: Configuration, p: Pending, retry: bool, now: Time) {
    retry || (!GivenUp(config, p) && p.nextAttemptAt <= now)
  }

  function AnswerState(config: Configuration, s: ExportState, p: Pending, env: Env): ExportState {
    match env.answer
    case None => s.(pending := None, lastPayload := Some(p.snapshot.payload))
    case Some(failure) => s.(pending := Some(AfterFailure(config, p, failure, env.answeredAt)))
  }

  function AnswerReport(config: Configuration, p: Pending, env: Env): Report {
    match env.answer
    case None => Report(Delivered, Some(p.snapshot.snapshotId), None, 0)
    case Some(failure) =>
      var again := failure == Transient && p.attempts + 1 < config.delivery.maxAttempts;
      Report(Failed, Some(p.snapshot.snapshotId), Some(failure), if again then Delay(config.delivery, p.attempts) else 0)
  }

  /** The last part of a push, with a snapshot in the slot. */
  function SendEffects(config: Configuration, s: ExportState, p: Pending, retry: bool, env: Env): seq<Effect> {
    if MaySend(config, p, retry, env.checkedAt)
    then [Send(Sent(p.snapshot, config, retry, env.checkedAt, env.answeredAt)), Saved(AnswerState(config, s, p, env))]
    else []
  }

  function SendReport(config: Configuration, p: Pending, retry: bool, env: Env): Report {
    if MaySend(config, p, retry, env.checkedAt) then AnswerReport(config, p, env)
    else if GivenUp(config, p) then Report(Failed, Some(p.snapshot.snapshotId), p.lastFailure, 0)
    else Report(Deferred, None, None, p.nextAttemptAt - env.checkedAt)
  }

  predicate PushIsOff(config: Configuration, automatic: bool) {
    config.mode == Disabled || (automatic && config.mode != AfterWorkflow)
  }

  /** The part of a push after the synchronization. */
  function FillEffects(config: Configuration, s1: ExportState, retry: bool, automatic: bool, env: Env): seq<Effect> {
    match Prepare(config, s1, automatic, env)
    case Err(_) => []
    case Ok(s2) =>
      PrepareEffects(s1, s2) + (if s2.pending.None? then [] else SendEffects(config, s2, s2.pending.value, retry, env))
  }

  function FillReport(config: Configuration, s1: ExportState, retry: bool, automatic: bool, env: Env)
    : Result<Report, ExportError>
  {
    match Prepare(config, s1, automatic, env)
    case Err(e) => Err(e)
    case Ok(s2) =>
      if s2.pending.None? then Ok(Report(Unchanged, None, None, 0))
      else Ok(SendReport(config, s2.pending.value, retry, env))
  }

  function PushEffects(config: Configuration, s: ExportState, retry: bool, automatic: bool, env: Env): seq<Effect> {
    var s1 := Synchronize(config, env.syncedAt, s);
    var sync := SyncEffects(config, env.syncedAt, s);
    if PushIsOff(config, automatic) || (retry && s1.pending.None?) then sync
    else sync + FillEffects(config, s1, retry, automatic, env)
  }

  function PushReport(config: Configuration, s: ExportState, retry: bool, automatic: bool, env: Env)
    : Result<Report, ExportError>
  {
    var s1 := Synchronize(config, env.syncedAt, s);
    if PushIsOff(config, automatic) then Ok(Report(IsDisabled, None, None, 0))
    else if retry && s1.pending.None? then Ok(Report(Empty, None, None, 0))
    else FillReport(config, s1, retry, automatic, env)
  }

  function PreviewEffects(config: Configuration, s: ExportState, env: Env): seq<Effect> {
    var s1 := Synchronize(config, env.syncedAt, s);
    SyncEffects(config, env.syncedAt, s)
    + (match Prepare(config, s1, false, env) case Err(_) => [] case Ok(s2) => PrepareEffects(s1, s2))
  }

  // ----- histories

  /** An operation; configuring and disabling are an `Edit` followed by a `Look`, and the file
      may be edited by hand as well. `Look` is `status`. */
  datatype Operation = Edit(config: Configuration) | Look(env: Env) | Preview(env: Env)
    | Push(retry: bool, automatic: bool, env: Env)

  /** A crash leaves only the first `cut` effects. */
  datatype Call = Call(operation: Operation, cut: nat)

  datatype Made = Made(snapshot: Snapshot, config: Configuration)

  /** The stored state and configuration, and what has happened: the snapshots prepared, each
      with the configuration it was prepared under, and the requests sent. */
  datatype World = World(config: Configuration, store: ExportState, made: seq<Made>, sends: seq<Sent>)

  function Effects(w: World, o: Operation): seq<Effect> {
    match o
    case Edit(_) => []
    case Look(env) => SyncEffects(w.config, env.syncedAt, w.store)
    case Preview(env) => PreviewEffects(w.config, w.store, env)
    case Push(retry, automatic, env) => PushEffects(w.config, w.store, retry, automatic, env)
  }

  function Do(w: World, e: Effect): World {
    match e
    case Saved(s) => w.(store := s)
    case Prepared(s) =>
      w.(store := s,
         made := if s.pending.Some? && s.digest.Some?
                 then w.made + [Made(s.pending.value.snapshot, s.digest.value)] else w.made)
    case Send(sent) => w.(sends := w.sends + [sent])
  }

  function DoAll(w: World, effects: seq<Effect>): World
    decreases |effects|
  {
    if effects == [] then w else DoAll(Do(w, effects[0]), effects[1..])
  }

  function Perform(w: World, c: Call): World {
    match c.operation
    case Edit(config) => w.(config := config)
    case _ => DoAll(w, Effects(w, c.operation)[..Min(c.cut, |Effects(w, c.operation)|)])
  }

  function PerformAll(w: World, calls: seq<Call>): World
    decreases |calls|
  {
    if calls == [] then w else PerformAll(Perform(w, calls[0]), calls[1..])
  }
}
