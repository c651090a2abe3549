/** Measurement records (measurement/contracts.py:14-79): what one agent task cost. */
module Measurement {
  import opened Prelude

  type TaskId = string

  datatype Host = Codex | Claude

  datatype Purpose = Manual | Reuse | Creation | Maintenance

  datatype TokenUsage = TokenUsage(inputTokens: nat, outputTokens: nat, cached: Option<nat>, cacheWrite: Option<nat>,
    reasoning: Option<nat>)

  function OrZero(x: Option<nat>): nat {
    if x.Some? then x.value else 0
  }

  /** Cache categories are part of the input, reasoning of the output. */
  predicate ValidUsage(u: TokenUsage) {
    OrZero(u.cached) + OrZero(u.cacheWrite) <= u.inputTokens && OrZero(u.reasoning) <= u.outputTokens
  }

  datatype Counter = InBytes | ReferenceTokens

  datatype Exposure = Exposure(complete: bool, visibleBytes: nat, referenceTokens: Option<nat>, counter: Counter)

  /** `note` stands for the remaining fields, which are stored and compared but never read. */
  datatype Task = Task(
    taskId: TaskId,
    host: Host,
    model: Option<string>,
    purpose: Purpose,
    workload: string,
    workflowRef: Option<string>,
    runIds: seq<string>,
    verified: bool,
    usage: Option<TokenUsage>,
    complete: bool,
    exposure: Exposure,
    sourceDigest: string,
    sourceKey: string,
    sourceFileKey: string,
    firstLine: nat,
    lastLine: Option<nat>,
    observedAt: string,
    note: string)

  function Total(usage: TokenUsage): nat {
    usage.inputTokens + usage.outputTokens
  }

  /** An absent and an empty model are both no model. */
  predicate HasModel(t: Task) {
    t.model.Some? && t.model.value != ""
  }

  /** The lines of the history file that the task covers. */
  predicate Covers(t: Task, line: nat) {
    t.firstLine <= line && (t.lastLine.Some? ==> line <= t.lastLine.value)
  }
}
