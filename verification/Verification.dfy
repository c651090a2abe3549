/** The evidence policy (verification.py) and what the supervisor makes of its verdict
    (supervisor.py): accepted evidence always closes the run with a legal record. */
module Verification {
  import opened Prelude
  import opened Domain
  import opened WorkflowEvidence
  import L = LogStream
  import R = Redaction

  datatype EvidenceError =
    | StaleEvidence
    | DuplicateCheck
    | InvalidOutput
    | UnprovenPass
    | UnprovenFailure
    | ProcessFailed

  function Names(checks: seq<Check>): (names: seq<Text>)
    ensures |names| == |checks| && forall i :: 0 <= i < |checks| ==> names[i] == checks[i].name
  {
    seq(|checks|, i requires 0 <= i < |checks| => checks[i].name)
  }

  function Count(checks: seq<Check>, status: CheckStatus): nat {
    if checks == [] then 0
    else (if checks[0].status == status then 1 else 0) + Count(checks[1..], status)
  }

  /** `statuses.get(name) == "pass"`, where a later entry of the same name wins. */
  predicate Passing(checks: seq<Check>, name: Text) {
    exists i :: 0 <= i < |checks| && checks[i] == Check.Check(name, Passed)
             && forall j :: i < j < |checks| ==> checks[j].name != name
  }

  predicate AnyFailed(checks: seq<Check>) {
    exists i :: 0 <= i < |checks| && checks[i].status.Failed?
  }

  /** `schemaValid` is the verdict of the injected JSON schema validator. */
  function VerifyEvidence(e: Evidence, required: seq<Text>, runId: RunId, exitCode: int, schemaValid: bool)
    : Result<CheckCounts, EvidenceError>
  {
    if e.runId != runId then Err(StaleEvidence)
    else if !Distinct(Names(e.checks)) then Err(DuplicateCheck)
    else if !schemaValid then Err(InvalidOutput)
    else if e.outcome.Pass? && (exitCode != 0
                                || (exists i :: 0 <= i < |required| && !Passing(e.checks, required[i]))
                                || AnyFailed(e.checks) || Uncertain(e.effects)) then Err(UnprovenPass)
    else if e.outcome.Fail? && !AnyFailed(e.checks) then Err(UnprovenFailure)
    else if exitCode != 0 && exitCode != 1 then Err(ProcessFailed)
    else Ok(CheckCounts(|required|, Count(e.checks, Passed), Count(e.checks, Failed), Count(e.checks, Skipped)))
  }

  /** The evidence has exactly one entry for the name, and it passed. */
  ghost predicate ProvenBy(checks: seq<Check>, name: Text) {
    (exists c :: c in checks && c.name == name) && forall c :: c in checks && c.name == name ==> c.status == Passed
  }

  /** Evidence is accepted exactly when it belongs to the run, names no check twice, fits the
      schema, comes with exit code 0 or 1, and its outcome is backed: a pass by exit code 0,
      every required check, no failed one and certain effects, a failure by a failed check. */
  lemma AcceptedExactlyWhen(e: Evidence, required: seq<Text>, runId: RunId, exitCode: int, schemaValid: bool)
    ensures VerifyEvidence(e, required, runId, exitCode, schemaValid).Ok? <==>
      && e.runId == runId && Distinct(Names(e.checks)) && schemaValid && (exitCode == 0 || exitCode == 1)
      && (e.outcome == Pass ==>
        && exitCode == 0 && (forall name :: name in required ==> ProvenBy(e.checks, name))
        && (forall c :: c in e.checks ==> c.status != Failed) && !Uncertain(e.effects))
      && (e.outcome == Fail ==> exists c :: c in e.checks && c.status == Failed)
  {
    assert AnyFailed(e.checks) <==> exists c :: c in e.checks && c.status == Failed;
    if Distinct(Names(e.checks)) {
      forall name ensures Passing(e.checks, name) <==> ProvenBy(e.checks, name) {
        PassingIsProven(e.checks, name);
      }
    }
    assert (forall name :: name in required ==> Passing(e.checks, name)) <==>
      !exists i :: 0 <= i < |required| && !Passing(e.checks, required[i]);
  }

  /** A pass with exit code 0, all required checks, no failed one and certain effects. */
  ghost predicate BackedPass(e: Evidence, required: seq<Text>, exitCode: int) {
    && exitCode == 0 && !Uncertain(e.effects) && (forall name :: name in required ==> ProvenBy(e.checks, name))
    && forall c :: c in e.checks ==> c.status != Failed
  }

  /** Which refusal evidence gets: foreign before repeated before ill-formed evidence, then an
      outcome without its backing, and last the exit code. */
  lemma RefusedExactlyWhen(e: Evidence, required: seq<Text>, runId: RunId, exitCode: int, schemaValid: bool)
    ensures var r := VerifyEvidence(e, required, runId, exitCode, schemaValid);
      var sound := e.runId == runId && Distinct(Names(e.checks)) && schemaValid;
      var failing := exists c :: c in e.checks && c.status == Failed;
      && (r == Err(StaleEvidence) <==> e.runId != runId)
      && (r == Err(DuplicateCheck) <==> e.runId == runId && !Distinct(Names(e.checks)))
      && (r == Err(InvalidOutput) <==> e.runId == runId && Distinct(Names(e.checks)) && !schemaValid)
      && (r == Err(UnprovenPass) <==> sound && e.outcome == Pass && !BackedPass(e, required, exitCode))
      && (r == Err(UnprovenFailure) <==> sound && e.outcome == Fail && !failing)
      && (r == Err(ProcessFailed) <==>
            && sound && (e.outcome == Pass ==> BackedPass(e, required, exitCode)) && (e.outcome == Fail ==> failing)
            && exitCode != 0 && exitCode != 1)
  {
    AcceptedExactlyWhen(e, required, runId, 0, schemaValid);
    assert AnyFailed(e.checks) <==> exists c :: c in e.checks && c.status == Failed;
  }

  lemma PassingIsProven(checks: seq<Check>, name: Text)
    requires Distinct(Names(checks))
    ensures Passing(checks, name) <==> ProvenBy(checks, name)
  {
    assert forall i, j :: 0 <= i < j < |checks| ==> Names(checks)[i] != Names(checks)[j];
    if ProvenBy(checks, name) {
      var c :| c in checks && c.name == name;
      var i :| 0 <= i < |checks| && checks[i] == c;
      assert forall j :: i < j < |checks| ==> Names(checks)[j] != Names(checks)[i];
      assert checks[i] == Check.Check(name, Passed);
    }
  }

  lemma {:induction false} CountZero(checks: seq<Check>, status: CheckStatus)
    ensures Count(checks, status) > 0 <==> exists i :: 0 <= i < |checks| && checks[i].status == status
  {
    if checks != [] {
      CountZero(checks[1..], status);
      assert forall i :: 0 <= i < |checks| - 1 ==> checks[1..][i] == checks[i + 1];
      if i :| 0 <= i < |checks| && checks[i].status == status {
        if i > 0 { assert checks[1..][i - 1].status == status; }
      }
    }
  }

  /** Every check is counted exactly once. */
  lemma {:induction false} CountsPartition(checks: seq<Check>)
    ensures Count(checks, Passed) + Count(checks, Failed) + Count(checks, Skipped) == |checks|
  {
    if checks != [] { CountsPartition(checks[1..]); }
  }

  function Statuses(checks: seq<Check>): (statuses: seq<CheckStatus>)
    ensures |statuses| == |checks| && forall i :: 0 <= i < |checks| ==> statuses[i] == checks[i].status
  {
    seq(|checks|, i requires 0 <= i < |checks| => checks[i].status)
  }

  /** How many of the checks have this status. */
  function Number(checks: seq<Check>, status: CheckStatus): nat {
    multiset(Statuses(checks))[status]
  }

  lemma {:induction false} CountIsNumber(checks: seq<Check>, status: CheckStatus)
    ensures Count(checks, status) == Number(checks, status)
    decreases |checks|
  {
    if checks != [] {
      CountIsNumber(checks[1..], status);
      assert Statuses(checks) == [checks[0].status] + Statuses(checks[1..]);
    }
  }

  function PassedNames(checks: seq<Check>): set<Text> {
    set i | 0 <= i < |checks| && checks[i].status.Passed? :: checks[i].name
  }

  lemma {:induction false} PassedNamesBound(checks: seq<Check>)
    ensures |PassedNames(checks)| <= Count(checks, Passed)
  {
    if checks == [] {
      assert PassedNames(checks) == {};
    } else {
      var rest := checks[1..];
      PassedNamesBound(rest);
      var head: set<Text> := if checks[0].status.Passed? then {checks[0].name} else {};
      forall n | n in PassedNames(checks) ensures n in PassedNames(rest) + head {
        var i :| 0 <= i < |checks| && checks[i].status.Passed? && checks[i].name == n;
        if i > 0 { assert rest[i - 1] == checks[i]; }
      }
      SubsetSize(PassedNames(checks), PassedNames(rest) + head);
    }
  }

  /** Distinct required names that all pass are at most as many as the passing checks. */
  lemma RequiredAreCounted(checks: seq<Check>, required: seq<Text>)
    requires Distinct(required)
    requires forall i :: 0 <= i < |required| ==> Passing(checks, required[i])
    ensures Count(checks, Passed) >= |required|
  {
    DistinctSize(required);
    forall n | n in Elements(required) ensures n in PassedNames(checks) {
      var i :| 0 <= i < |required| && required[i] == n;
      assert Passing(checks, required[i]);
    }
    SubsetSize(Elements(required), PassedNames(checks));
    PassedNamesBound(checks);
  }

  /** The ending the supervisor builds from accepted evidence; `outputs` is the encoded object. */
  function EvidenceEnding(e: Evidence, counts: CheckCounts, outputs: string, at: Stamp, ms: nat): Ending {
    Ending(Completed, e.outcome, e.effects, at, ms, Some(counts), Some(outputs), None, false)
  }

  /** Exactly when accepted evidence gives a legal record: a pass needs as many passing
      checks as there are required names, counted with their repetitions. */
  lemma AcceptedEvidenceLegality(e: Evidence, required: seq<Text>, run: Run, exitCode: int, schemaValid: bool,
      outputs: string, at: Stamp, ms: nat)
    requires run.state.Running?
    requires VerifyEvidence(e, required, run.runId, exitCode, schemaValid).Ok?
    ensures var counts := VerifyEvidence(e, required, run.runId, exitCode, schemaValid).value;
      (Finish(run, EvidenceEnding(e, counts, outputs, at, ms)).Ok? <==>
       (e.outcome.Pass? ==> counts.passed >= |required|))
  {
    CountZero(e.checks, Failed);
  }

  /** With distinct required names, which bundle loading enforces, it always does. */
  lemma AcceptedEvidenceIsLegal(e: Evidence, required: seq<Text>, run: Run, exitCode: int, schemaValid: bool,
      outputs: string, at: Stamp, ms: nat)
    requires run.state.Running? && Distinct(required)
    requires VerifyEvidence(e, required, run.runId, exitCode, schemaValid).Ok?
    ensures var counts := VerifyEvidence(e, required, run.runId, exitCode, schemaValid).value;
      && Finish(run, EvidenceEnding(e, counts, outputs, at, ms)).Ok?
      && counts.passed + counts.failed + counts.skipped == |e.checks|
      && (e.outcome.Pass? ==> exitCode == 0 && counts.failed == 0 && counts.passed >= |required|)
      && (e.outcome.Fail? ==> counts.failed > 0)
  {
    var counts := VerifyEvidence(e, required, run.runId, exitCode, schemaValid).value;
    AcceptedEvidenceLegality(e, required, run, exitCode, schemaValid, outputs, at, ms);
    CountsPartition(e.checks);
    CountZero(e.checks, Failed);
    if e.outcome.Pass? { RequiredAreCounted(e.checks, required); }
  }

  /** The names without their repetitions. */
  function Once(names: seq<Text>): (once: seq<Text>)
    ensures Distinct(once) && |once| <= |names|
    ensures forall n :: n in once <==> n in names
  {
    if names == [] then []
    else
      var rest := Once(names[1..]);
      assert forall n :: n in names <==> n == names[0] || n in names[1..];
      if names[0] in names[1..] then rest else [names[0]] + rest
  }

  lemma FirstIsNew(names: seq<Text>)
    requires names != [] && names[0] !in names[1..]
    ensures Distinct(names) <==> Distinct(names[1..])
  {
    var rest := names[1..];
    assert forall k :: 0 <= k < |rest| ==> rest[k] == names[k + 1] && rest[k] != names[0];
    if Distinct(rest) {
      forall i, j | 0 <= i < j < |names| ensures names[i] != names[j] {
        assert names[j] == rest[j - 1] && (i > 0 ==> names[i] == rest[i - 1]);
      }
    }
  }

  lemma {:induction false} OnceIsShorter(names: seq<Text>)
    requires !Distinct(names)
    ensures |Once(names)| < |names|
  {
    if names[0] !in names[1..] {
      FirstIsNew(names);
      OnceIsShorter(names[1..]);
    }
  }

  /** A passing check for each name. */
  function AllPass(names: seq<Text>): (checks: seq<Check>)
    ensures |checks| == |names| && forall i :: 0 <= i < |names| ==> checks[i] == Check.Check(names[i], Passed)
  {
    seq(|names|, i requires 0 <= i < |names| => Check.Check(names[i], Passed))
  }

  lemma {:induction false} CountAllPass(names: seq<Text>)
    ensures Count(AllPass(names), Passed) == |names|
  {
    if names != [] {
      assert AllPass(names)[1..] == AllPass(names[1..]);
      CountAllPass(names[1..]);
    }
  }

  /** Evidence with one passing check for each of the required names. */
  function OnePassEach(run: Run, required: seq<Text>): Evidence {
    Evidence.Evidence(run.runId, Pass, AllPass(Once(required)), [], FullEffects)
  }

  /** Without distinctness it fails: one passing check satisfies a name however often it is
      listed, but the record then claims more required checks than passes. */
  lemma RepeatedRequiredNameBreaksPass(required: seq<Text>, run: Run, outputs: string, at: Stamp, ms: nat)
    requires run.state.Running? && !Distinct(required)
    ensures var e := OnePassEach(run, required); var verdict := VerifyEvidence(e, required, run.runId, 0, true);
      verdict.Ok? && Finish(run, EvidenceEnding(e, verdict.value, outputs, at, ms)) == Err(InvalidRecord)
  {
    var e := OnePassEach(run, required);
    AcceptedExactlyWhen(e, required, run.runId, 0, true);
    OnceIsShorter(required);
    CountAllPass(Once(required));
    forall name | name in required ensures ProvenBy(e.checks, name) {
      var i :| 0 <= i < |Once(required)| && Once(required)[i] == name;
      assert e.checks[i] == Check.Check(name, Passed);
    }
    AcceptedEvidenceLegality(e, required, run, 0, true, outputs, at, ms);
  }

  ghost predicate AlwaysLegal(required: seq<Text>, run: Run, outputs: string, at: Stamp, ms: nat) {
    forall e, exitCode, schemaValid ::
      VerifyEvidence(e, required, run.runId, exitCode, schemaValid).Ok? ==>
        Finish(run, EvidenceEnding(e, VerifyEvidence(e, required, run.runId, exitCode, schemaValid).value, outputs, at, ms)).Ok?
  }

  /** Accepted evidence always gives a legal record if and only if no required name is repeated. */
  lemma AlwaysLegalExactlyWhenDistinct(required: seq<Text>, run: Run, outputs: string, at: Stamp, ms: nat)
    requires run.state.Running?
    ensures AlwaysLegal(required, run, outputs, at, ms) <==> Distinct(required)
  {
    if Distinct(required) {
      forall e, exitCode, schemaValid | VerifyEvidence(e, required, run.runId, exitCode, schemaValid).Ok?
        ensures Finish(run, EvidenceEnding(e, VerifyEvidence(e, required, run.runId, exitCode, schemaValid).value, outputs, at, ms)).Ok?
      {
        AcceptedEvidenceIsLegal(e, required, run, exitCode, schemaValid, outputs, at, ms);
      }
    } else {
      RepeatedRequiredNameBreaksPass(required, run, outputs, at, ms);
    }
  }

  /** How `Supervisor._execute` can go: stopped before launch, stopped after it, or evidence. */
  datatype Attempt =
    | Raised(launched: bool, code: string, message: string)
    | Crashed(launched: bool)
    | Reported(evidence: Evidence, exitCode: int, schemaValid: bool)

  /** `Supervisor._execute`: the terminal record it hands to the repository. Evidence whose
      cleaned names are too long, or whose record the validator refuses, is an unexpected
      exception, reported as such. */
  function SupervisorResult(run: Run, required: seq<Text>, a: Attempt, secrets: seq<R.Secret>, encode: seq<Member> -> string,
      at: Stamp, ms: nat): Result<Run, FinishError>
  {
    match a
    case Raised(launched, code, message) =>
      Finish(run, FailureEnding(if code == "CANCELLED" then Cancelled else Errored,
                                if launched then run.effects else NoEffects, at, code, message)
                  .(durationMs := ms, logTruncated := code == "OUTPUT_LIMIT"))
    case Crashed(launched) =>
      Finish(run, FailureEnding(Errored, if launched then run.effects else NoEffects, at,
                                "EXECUTION_ERROR", "Execution or evidence decoding failed; inspect logs")
                  .(durationMs := ms))
    case Reported(e, exitCode, schemaValid) =>
      match VerifyEvidence(e, required, run.runId, exitCode, schemaValid)
      case Err(error) =>
        Finish(run, FailureEnding(Errored, run.effects, at, EvidenceCode(error), "").(durationMs := ms))
      case Ok(counts) =>
        var clean := CleanEvidence(e, secrets);
        var ended := Finish(run, EvidenceEnding(e, counts, encode(clean.outputs), at, ms));
        if NamesFit(clean.checks) && ended.Ok? then ended
        else Finish(run, FailureEnding(Errored, run.effects, at,
                                       "EXECUTION_ERROR", "Execution or evidence decoding failed; inspect logs")
                         .(durationMs := ms))
  }

  function EvidenceCode(e: EvidenceError): string {
    match e
    case StaleEvidence => "STALE_EVIDENCE"
    case DuplicateCheck => "DUPLICATE_CHECK"
    case InvalidOutput => "INVALID_OUTPUT"
    case UnprovenPass => "UNPROVEN_PASS"
    case UnprovenFailure => "UNPROVEN_FAILURE"
    case ProcessFailed => "PROCESS_FAILED"
  }

  /** However an execution goes, the supervisor ends with a legal terminal record of the same
      invocation; only accepted evidence of this run can make it `completed`, with the cleaned
      outputs; a verified pass has all its required checks; and anything that failed after launch
      keeps the declared effects, so uncertainty is never replaced by a claim of no effects. */
  lemma SupervisorAlwaysConcludes(run: Run, required: seq<Text>, a: Attempt, secrets: seq<R.Secret>,
      encode: seq<Member> -> string, at: Stamp, ms: nat)
    requires run.state.Running?
    ensures var r := SupervisorResult(run, required, a, secrets, encode, at, ms);
      && r.Ok? && ConsistentState(r.value) && !r.value.state.Running?
      && r.value.runId == run.runId && SameInvocation(r.value, run)
      && (r.value.state.Completed? ==>
            && a.Reported? && a.evidence.runId == run.runId
            && VerifyEvidence(a.evidence, required, run.runId, a.exitCode, a.schemaValid).Ok?
            && r.value.outputs == Some(encode(CleanEvidence(a.evidence, secrets).outputs)))
      && (!r.value.state.Completed? ==> r.value.outputs.None?)
      && (r.value.outcome.Pass? ==>
            a.Reported? && forall i :: 0 <= i < |required| ==> Passing(a.evidence.checks, required[i]))
      && (!r.value.state.Completed? && (a.Reported? || a.launched) ==> r.value.effects == run.effects)
  {
    if a.Reported? {
      var v := VerifyEvidence(a.evidence, required, run.runId, a.exitCode, a.schemaValid);
      var outputs := encode(CleanEvidence(a.evidence, secrets).outputs);
      if v.Ok? {
        AcceptedEvidenceLegality(a.evidence, required, run, a.exitCode, a.schemaValid, outputs, at, ms);
      }
    }
  }

  /** A completed record is the evidence: its outcome and effects, the number of its checks of
      each status beside the number required, the given times, and no error. */
  lemma CompletedIsTheEvidence(run: Run, required: seq<Text>, a: Attempt, secrets: seq<R.Secret>,
      encode: seq<Member> -> string, at: Stamp, ms: nat)
    requires run.state.Running?
    ensures var r := SupervisorResult(run, required, a, secrets, encode, at, ms);
      r.Ok? && r.value.state.Completed? ==>
        && a.Reported? && r.value.outcome == a.evidence.outcome && r.value.effects == a.evidence.effects
        && r.value.checks == Some(CheckCounts(|required|, Number(a.evidence.checks, Passed),
                                              Number(a.evidence.checks, Failed), Number(a.evidence.checks, Skipped)))
        && r.value.finishedAt == Some(at) && r.value.durationMs == ms && r.value.error.None? && !r.value.logTruncated
  {
    if a.Reported? {
      CountIsNumber(a.evidence.checks, Passed);
      CountIsNumber(a.evidence.checks, Failed);
      CountIsNumber(a.evidence.checks, Skipped);
    }
  }

  /** Why an attempt without accepted evidence ended. */
  ghost predicate Explains(error: Failure, a: Attempt, required: seq<Text>, runId: RunId) {
    if a.Raised? then error == Failure(a.code, a.message)
    else if a.Reported? && VerifyEvidence(a.evidence, required, runId, a.exitCode, a.schemaValid).Err? then
      error.code == EvidenceCode(VerifyEvidence(a.evidence, required, runId, a.exitCode, a.schemaValid).error)
    else error.code == "EXECUTION_ERROR"
  }

  /** Any other record says that nothing was decided and why: it has no effects exactly if the
      attempt was stopped before launch, or else the declared ones, it is cancelled exactly for
      that error, and its log is marked as cut exactly for the output limit. */
  lemma StoppedTellsWhy(run: Run, required: seq<Text>, a: Attempt, secrets: seq<R.Secret>,
      encode: seq<Member> -> string, at: Stamp, ms: nat)
    requires run.state.Running?
    ensures var r := SupervisorResult(run, required, a, secrets, encode, at, ms);
      r.Ok? && !r.value.state.Completed? ==>
        && r.value.outcome == Inconclusive && r.value.checks.None? && r.value.outputs.None?
        && r.value.finishedAt == Some(at) && r.value.durationMs == ms
        && r.value.effects == (if a.Reported? || a.launched then run.effects else NoEffects)
        && r.value.state == (if a.Raised? && a.code == "CANCELLED" then Cancelled else Errored)
        && r.value.error.Some? && Explains(r.value.error.value, a, required, run.runId)
        && (r.value.logTruncated <==> a.Raised? && a.code == "OUTPUT_LIMIT")
  {
    SupervisorAlwaysConcludes(run, required, a, secrets, encode, at, ms);
  }

  /** Accepted evidence completes the run exactly when it can be stored: when no name of a check is
      too long after cleaning, or, what does not occur, empty. */
  lemma AcceptedIsStoredExactlyWhen(run: Run, required: seq<Text>, e: Evidence, exitCode: int, schemaValid: bool,
      secrets: seq<R.Secret>, encode: seq<Member> -> string, at: Stamp, ms: nat)
    requires run.state.Running? && Distinct(required)
    requires VerifyEvidence(e, required, run.runId, exitCode, schemaValid).Ok?
    ensures var r := SupervisorResult(run, required, Reported(e, exitCode, schemaValid), secrets, encode, at, ms);
      && r.Ok? && (r.value.state.Completed? <==> NamesFit(CleanChecks(e.checks, secrets)))
      && (!r.value.state.Completed? ==> r.value.state.Errored? && r.value.effects == run.effects)
  {
    var outputs := encode(CleanEvidence(e, secrets).outputs);
    AcceptedEvidenceIsLegal(e, required, run, exitCode, schemaValid, outputs, at, ms);
  }

  function Repeated(b: R.Byte, n: nat): (r: R.Bytes)
    ensures |r| == n && forall i :: 0 <= i < n ==> r[i] == b
  {
    seq(n, _ => b)
  }

  lemma {:induction false} CharsOfRepeated(b: R.Byte, n: nat)
    requires b < 0x80
    ensures L.Chars(Repeated(b, n)) == n
    decreases n
  {
    if n > 0 {
      assert Repeated(b, n)[1..] == Repeated(b, n - 1);
      CharsOfRepeated(b, n - 1);
    }
  }

  lemma CharsOfMarked(rest: R.Bytes)
    ensures L.Chars(R.MARKER + rest) == |R.MARKER| + L.Chars(rest)
  {
    CharsSkip(R.MARKER, rest);
  }

  lemma {:induction false} CharsSkip(a: R.Bytes, rest: R.Bytes)
    requires forall i :: 0 <= i < |a| ==> !L.IsContinuation(a[i])
    ensures L.Chars(a + rest) == |a| + L.Chars(rest)
    decreases |a|
  {
    if a == [] {
      assert a + rest == rest;
    } else {
      assert (a + rest)[1..] == a[1..] + rest;
      CharsSkip(a[1..], rest);
    }
  }

  lemma {:induction false} RepeatedGrows(b: R.Byte, n: nat)
    ensures L.Chars(R.Replace(Repeated(b, n), [b])) == n * |R.MARKER|
    decreases n
  {
    if n > 0 {
      var text := Repeated(b, n);
      assert text[1..] == Repeated(b, n - 1) && text[..1] == [b];
      RepeatedGrows(b, n - 1);
      CharsOfMarked(R.Replace(text[1..], [b]));
      assert R.Replace(text, [b]) == R.MARKER + R.Replace(text[1..], [b]);
    }
  }

  /** That does happen: redaction makes a name of 26 characters too long. */
  lemma RedactedNameTooLong(b: R.Byte)
    requires b < 0x80
    ensures var checks := [Check.Check(Repeated(b, 26), Passed)];
      NamesFit(checks) && !NamesFit(CleanChecks(checks, [[b]]))
  {
    var checks, secrets: seq<R.Secret> := [Check.Check(Repeated(b, 26), Passed)], [[b]];
    CharsOfRepeated(b, 26);
    RepeatedGrows(b, 26);
    assert secrets[1..] == [];
    assert R.RedactAll(Repeated(b, 26), secrets) == R.Replace(Repeated(b, 26), [b]);
    assert CleanChecks(checks, secrets)[0] in CleanChecks(checks, secrets);
  }

  lemma {:induction false} CleanChecksCount(checks: seq<Check>, secrets: seq<R.Secret>, status: CheckStatus)
    ensures Count(CleanChecks(checks, secrets), status) == Count(checks, status)
    decreases |checks|
  {
    if checks != [] {
      assert CleanChecks(checks, secrets)[1..] == CleanChecks(checks[1..], secrets);
      CleanChecksCount(checks[1..], secrets, status);
    }
  }

  /** What is stored of the evidence is of the same run, outcome and effects, has as many checks of
      each status, and holds no secret that cannot overlap a marker: in no name of a check, and in
      no key and no text of the outputs. */
  lemma StoredEvidenceHides(e: Evidence, secrets: seq<R.Secret>, u: R.Secret)
    requires R.Clear(u) && u in secrets
    ensures var clean := CleanEvidence(e, secrets);
      && clean.runId == e.runId && clean.outcome == e.outcome && clean.effects == e.effects
      && (forall status :: Count(clean.checks, status) == Count(e.checks, status))
      && (forall c :: c in clean.checks ==> !R.Occurs(c.name, u)) && !Holds(Object(clean.outputs), u)
  {
    forall status ensures Count(CleanEvidence(e, secrets).checks, status) == Count(e.checks, status) {
      CleanChecksCount(e.checks, secrets, status);
    }
    forall c | c in CleanChecks(e.checks, secrets) ensures !R.Occurs(c.name, u) {
      var i :| 0 <= i < |e.checks| && CleanChecks(e.checks, secrets)[i] == c;
      R.RedactAllHides(e.checks[i].name, secrets, u);
    }
    CleanHides(Object(e.outputs), secrets, u);
  }
}
