/** Run records, the rule that says which of them are legal, and the single
    transition that makes an active record terminal (domain.py). */
module Domain {
  import opened Prelude

  /** A run id is `run_` and 32 hexadecimal digits. It stands here for the number those
      digits spell: equal-length hexadecimal text sorts the way the numbers do. */
  type RunId = nat

  datatype Outcome = Pass | Fail | Inconclusive | NotApplicable
  datatype RunState = Running | Completed | Blocked | Errored | Cancelled
  datatype Effects = NoEffects | FullEffects | PartialEffects | UnknownEffects
  datatype Purpose = ForWorkflow | ForValidation | ForUnknown
  datatype CheckCounts = CheckCounts(required: nat, passed: nat, failed: nat, skipped: nat)
  datatype Failure = Failure(code: string, message: string)
  datatype Target = Target(environment: string, workspace: string, sourceRevision: Option<string>, dirty: Option<bool>)

  /** `outputs` holds the encoded JSON object; its structure never matters here. */
  datatype Run = Run(
    runId: RunId,
    workflowRef: string,
    profile: Option<string>,
    purpose: Purpose,
    state: RunState,
    outcome: Outcome,
    effects: Effects,
    target: Target,
    startedAt: string,
    finishedAt: Option<string>,
    durationMs: nat,
    evidenceRef: string,
    checks: Option<CheckCounts>,
    outputs: Option<string>,
    error: Option<Failure>,
    logTruncated: bool)

  /** Partial or unknown effects: someone has to look at the outside world first. */
  predicate Uncertain(e: Effects) {
    e.PartialEffects? || e.UnknownEffects?
  }

  /** The record validator: which combinations of fields a run may have. */
  predicate ConsistentState(r: Run) {
    if r.state.Running? then
      r.outcome.Inconclusive? && r.finishedAt.None? && r.error.None? && r.checks.None? && r.outputs.None?
    else
      && r.finishedAt.Some? && r.finishedAt.value != ""
      && if r.state.Completed? then
           && r.error.None? && r.checks.Some?
           && (r.outcome.Pass? ==>
                 && r.checks.value.failed == 0
                 && r.checks.value.passed >= r.checks.value.required
                 && !Uncertain(r.effects))
           && (r.outcome.Fail? ==> r.checks.value.failed > 0)
         else
           r.outcome.Inconclusive? && r.error.Some?
  }

  /** The fields `SqliteRuns.finish` compares before it accepts a completion. */
  predicate SameInvocation(a: Run, b: Run) {
    && a.workflowRef == b.workflowRef && a.profile == b.profile && a.purpose == b.purpose
    && a.target == b.target && a.startedAt == b.startedAt && a.evidenceRef == b.evidenceRef
  }

  /** Everything `Run.finish` is given; `state` is never `Running`. */
  datatype Ending = Ending(
    state: RunState,
    outcome: Outcome,
    effects: Effects,
    finishedAt: string,
    durationMs: nat,
    checks: Option<CheckCounts>,
    outputs: Option<string>,
    error: Option<Failure>,
    logTruncated: bool)

  datatype FinishError = InvalidTransition | InvalidRecord

  /** The typed transition: it succeeds on an active run with a legal ending, keeps the
      invocation, and never yields a record the validator would refuse. */
  function Finish(run: Run, e: Ending): (r: Result<Run, FinishError>)
    requires !e.state.Running?
    ensures r.Ok? ==>
      && run.state.Running? && !r.value.state.Running? && ConsistentState(r.value)
      && r.value.runId == run.runId && SameInvocation(r.value, run)
    ensures r == Err(InvalidTransition) <==> !run.state.Running?
  {
    if !run.state.Running? then Err(InvalidTransition) else
    var ended := run.(state := e.state, outcome := e.outcome, effects := e.effects,
      finishedAt := Some(e.finishedAt), durationMs := e.durationMs, checks := e.checks,
      outputs := e.outputs, error := e.error, logTruncated := e.logTruncated);
    if ConsistentState(ended) then Ok(ended) else Err(InvalidRecord)
  }

  /** An ending that reports an execution failure instead of evidence. */
  function FailureEnding(state: RunState, effects: Effects, at: Stamp, code: string, message: string): Ending
  {
    Ending(state, Inconclusive, effects, at, 0, None, None, Some(Failure(code, message)), false)
  }

  /** A failure ending is always legal, so an active run can always be closed. */
  lemma FailureEndingIsLegal(run: Run, state: RunState, effects: Effects, at: Stamp, code: string, message: string)
    requires run.state.Running? && (state.Errored? || state.Cancelled? || state.Blocked?)
    ensures Finish(run, FailureEnding(state, effects, at, code, message)).Ok?
  {
  }
}
