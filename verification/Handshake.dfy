/** The launch handshake between the worker (process.py), its guardian and the gated child
    (process_guardian.py): one execution as a state machine. Every process can be killed
    between any two steps. Pipes report end of file when their last writer is gone, and the
    shared activity lock lives until the last copy of its descriptor is closed. */
module Handshake {
  import opened Prelude

  /** What the guardian reports at the end. */
  datatype Verdict = Exited(code: int) | TimedOut | OwnerLost | CancelledByWorker | StartFailed | GuardFailed

  /** Lines on the status pipe: the child's process id first, the verdict last. */
  datatype Line = PidLine | VerdictLine(verdict: Verdict)

  /** The worker inside `execute`: from opening the pipes to leaving or being killed. */
  datatype WorkerPhase =
    | NotLaunched
    | Opened
    | Watching
    | Acking
    | Drained
    | Unwinding(raised: bool)
    | Waiting(raised: bool)
    | Left
    | Lost

  datatype GuardianPhase =
    | NoGuardian
    | Starting
    | Probed
    | Spawned
    | Polling
    | ClosingGate(verdict: Verdict)
    | Terminating(verdict: Verdict)
    | Reporting(verdict: Verdict)
    | Reported
    | GuardianExited
    | GuardianKilled

  datatype ChildPhase = NoChild | Gated | Executing | Dead(code: int)

  datatype Party = WorkerParty | GuardianParty | ChildParty

  /** `control` and `gate` count unread `S` bytes; `controlOpen` and `gateOpen` say whether a
      process still holds the write end. `activity` is the set of processes holding a copy of
      the shared activity descriptor. `orphanKilled` means SIGKILL has been sent to the
      child's group. The last four fields only record what has happened. */
  datatype Session = Session(
    worker: WorkerPhase,
    guardian: GuardianPhase,
    child: ChildPhase,
    control: nat,
    controlOpen: bool,
    status: seq<Line>,
    gate: nat,
    gateOpen: bool,
    pidKnown: bool,
    verdict: Verdict,
    stop: bool,
    orphanKilled: bool,
    activity: set<Party>,
    acked: bool,
    forwarded: bool,
    ran: bool,
    returned: Option<int>)

  const FRESH := Session(NotLaunched, NoGuardian, NoChild, 0, false, [], 0, false, false, GuardFailed,
                         false, false, {}, false, false, false, None)

  predicate WorkerActive(s: Session) {
    s.worker.Opened? || s.worker.Watching? || s.worker.Acking? || s.worker.Drained?
    || s.worker.Unwinding? || s.worker.Waiting?
  }

  predicate GuardianAlive(s: Session) {
    !(s.guardian.NoGuardian? || s.guardian.GuardianExited? || s.guardian.GuardianKilled?)
  }

  predicate ChildAlive(s: Session) {
    s.child.Gated? || s.child.Executing?
  }

  /** The workflow's own code is running. */
  predicate WorkflowAlive(s: Session) {
    s.child.Executing?
  }

  datatype Move =
    // the worker
    | OpenPipes
    | LaunchGuardian
    | LaunchFails
    | ReadStatus(lines: nat)
    | Acknowledge
    | Abort
    | SeeGuardianDead
    | Drain
    | LoopEnds
    | CleanUp
    | Leave
    | KillWorker
    // the guardian
    | Probe
    | SpawnChild
    | SpawnFails
    | WritePid
    | SeeStop
    | SeeChildExit
    | SeeDeadline
    | ReadControl
    | CloseGate
    | TerminateGroup(code: int)
    | Report
    | GuardianExits
    | KillGuardian
    // the child
    | PassGate
    | GateCloses
    | ChildDies(code: int)

  /** The moves of the worker process itself. */
  predicate ByWorker(m: Move) {
    m.OpenPipes? || m.LaunchGuardian? || m.LaunchFails? || m.ReadStatus? || m.Acknowledge? || m.Abort?
    || m.SeeGuardianDead? || m.Drain? || m.LoopEnds? || m.CleanUp? || m.Leave? || m.KillWorker?
  }

  predicate Can(s: Session, m: Move) {
    match m
    case OpenPipes => s.worker.NotLaunched?
    case LaunchGuardian => s.worker.Opened?
    case LaunchFails => s.worker.Opened?
    case ReadStatus(n) => s.worker.Watching? && 1 <= n <= |s.status|
    case Acknowledge => s.worker.Acking?
    case Abort => s.worker.Watching? || s.worker.Drained?
    case SeeGuardianDead => s.worker.Watching? && s.guardian.GuardianKilled?
    case Drain => s.worker.Watching? && s.guardian.GuardianExited?
    case LoopEnds => s.worker.Drained?
    case CleanUp => s.worker.Unwinding?
    case Leave => s.worker.Waiting?
    case KillWorker => WorkerActive(s)
    case Probe => s.guardian.Starting?
    case SpawnChild => s.guardian.Probed?
    case SpawnFails => s.guardian.Probed?
    case WritePid => s.guardian.Spawned?
    case SeeStop => s.guardian.Polling? && s.stop
    case SeeChildExit => s.guardian.Polling? && s.child.Dead?
    case SeeDeadline => s.guardian.Polling?
    case ReadControl => s.guardian.Polling? && (s.control > 0 || !s.controlOpen)
    case CloseGate => s.guardian.ClosingGate?
    case TerminateGroup(_) => s.guardian.Terminating?
    case Report => s.guardian.Reporting?
    case GuardianExits => s.guardian.Reported?
    case KillGuardian => GuardianAlive(s)
    case PassGate => s.child.Gated? && s.gate > 0 && !s.orphanKilled
    case GateCloses => s.child.Gated? && s.gate == 0 && !s.gateOpen
    case ChildDies(_) => ChildAlive(s)
  }

  /** `GuardStatus.feed`, line by line: `None` when a second process id arrives. */
  function Feed(pidKnown: bool, verdict: Verdict, lines: seq<Line>): Option<(bool, Verdict)>
    decreases |lines|
  {
    if lines == [] then Some((pidKnown, verdict))
    else match lines[0]
      case PidLine => if pidKnown then None else Feed(true, verdict, lines[1..])
      case VerdictLine(v) => Feed(pidKnown, v, lines[1..])
  }

  function Read(s: Session, n: nat, next: WorkerPhase): Session
    requires n <= |s.status|
  {
    match Feed(s.pidKnown, s.verdict, s.status[..n])
    case None => s.(status := s.status[n..], worker := Unwinding(true))
    case Some(fed) => s.(status := s.status[n..], pidKnown := fed.0, verdict := fed.1, worker := next)
  }

  /** The worker is the only reader of the status pipe. */
  function Say(s: Session, line: Line): seq<Line> {
    if WorkerActive(s) then s.status + [line] else s.status
  }

  function Do(s: Session, m: Move): Session
    requires Can(s, m)
  {
    match m
    case OpenPipes => s.(worker := Opened, controlOpen := true, activity := s.activity + {WorkerParty})
    case LaunchGuardian => s.(worker := Watching, guardian := Starting, activity := s.activity + {GuardianParty})
    case LaunchFails => s.(worker := Left, controlOpen := false, activity := s.activity - {WorkerParty})
    case ReadStatus(n) =>
      var r := Read(s, n, Watching);
      if r.worker.Watching? && !s.pidKnown && r.pidKnown then r.(worker := Acking) else r
    case Acknowledge => s.(worker := Watching, control := s.control + 1, acked := true)
    case Abort => s.(worker := Unwinding(true))
    case SeeGuardianDead => s.(worker := Unwinding(true))
    case Drain => Read(s, |s.status|, Drained)
    case LoopEnds => s.(worker := Unwinding(false))
    case CleanUp =>
      s.(worker := Waiting(s.worker.raised),
         orphanKilled := s.orphanKilled || (s.guardian.GuardianKilled? && s.pidKnown),
         stop := s.stop || GuardianAlive(s))
    case Leave =>
      s.(worker := Left, controlOpen := false, activity := s.activity - {WorkerParty},
         returned := if !s.worker.raised && s.guardian.GuardianExited? && s.verdict.Exited?
                     then Some(s.verdict.code) else None)
    case KillWorker => s.(worker := Lost, controlOpen := false, activity := s.activity - {WorkerParty})
    case Probe =>
      if s.control > 0 then s.(guardian := Probed, control := s.control - 1)
      else if !s.controlOpen then s.(guardian := Reporting(OwnerLost))
      else s.(guardian := Probed)
    case SpawnChild =>
      s.(guardian := Spawned, child := Gated, gateOpen := true, activity := s.activity + {ChildParty})
    case SpawnFails => s.(guardian := Reporting(StartFailed))
    case WritePid =>
      if WorkerActive(s) then s.(guardian := Polling, status := Say(s, PidLine))
      else s.(guardian := ClosingGate(StartFailed))
    case SeeStop => s.(guardian := ClosingGate(CancelledByWorker))
    case SeeChildExit => s.(guardian := ClosingGate(Exited(s.child.code)))
    case SeeDeadline => s.(guardian := ClosingGate(TimedOut))
    case ReadControl =>
      if s.control == 0 then s.(guardian := ClosingGate(OwnerLost))
      else if !s.gateOpen then s.(control := s.control - 1)
      else if s.child.Dead? then s.(control := s.control - 1, guardian := ClosingGate(StartFailed))
      else s.(control := s.control - 1, gate := s.gate + 1, gateOpen := false, forwarded := true)
    case CloseGate => s.(guardian := Terminating(s.guardian.verdict), gateOpen := false)
    case TerminateGroup(code) =>
      s.(guardian := Reporting(s.guardian.verdict), child := if ChildAlive(s) then Dead(code) else s.child,
         activity := s.activity - {ChildParty})
    case Report => s.(guardian := Reported, status := Say(s, VerdictLine(s.guardian.verdict)))
    case GuardianExits => s.(guardian := GuardianExited, activity := s.activity - {GuardianParty})
    case KillGuardian => s.(guardian := GuardianKilled, gateOpen := false, activity := s.activity - {GuardianParty})
    case PassGate => s.(child := Executing, gate := s.gate - 1, ran := true)
    case GateCloses => s.(child := Dead(125), activity := s.activity - {ChildParty})
    case ChildDies(code) => s.(child := Dead(code), activity := s.activity - {ChildParty})
  }

  /** The guardian has not started the child yet. */
  predicate BeforeChild(s: Session) {
    s.guardian.NoGuardian? || s.guardian.Starting? || s.guardian.Probed?
  }

  /** A verdict that names an exit code is true: the child is dead and that was its code. */
  predicate Truthful(s: Session, v: Verdict) {
    v.Exited? ==> s.child == Dead(v.code)
  }

  predicate HasPid(status: seq<Line>) {
    |status| > 0 && status[0].PidLine?
  }

  predicate HasVerdict(status: seq<Line>) {
    |status| > 0 && status[|status| - 1].VerdictLine?
  }

  /** The status pipe never holds more than the process id and then the verdict. */
  predicate StatusShape(s: Session) {
    && |s.status| <= 2 && (|s.status| == 2 ==> HasPid(s.status) && HasVerdict(s.status))
    && (HasPid(s.status) ==> !s.pidKnown && !BeforeChild(s) && !s.guardian.Spawned? && !s.child.NoChild?)
    && (HasVerdict(s.status) ==>
          && (s.guardian.Reported? || s.guardian.GuardianExited? || s.guardian.GuardianKilled?)
          && Truthful(s, s.status[|s.status| - 1].verdict))
  }

  predicate Good(s: Session) {
    && StatusShape(s)
    // descriptors: every process that is alive holds its copy, and nobody else does
    && (WorkerActive(s) <==> WorkerParty in s.activity) && (s.controlOpen <==> WorkerActive(s))
    && (GuardianAlive(s) <==> GuardianParty in s.activity)
    && (ChildAlive(s) <==> ChildParty in s.activity)
    // nothing exists before it has been started
    && ((s.worker.NotLaunched? || s.worker.Opened?) ==> s.guardian.NoGuardian?)
    && (BeforeChild(s) ==> s.child.NoChild?)
    && (s.child.NoChild? ==> BeforeChild(s) || s.guardian.GuardianKilled? || s.guardian.Reporting?
                             || s.guardian.Reported? || s.guardian.GuardianExited?)
    && (s.child.NoChild? ==> !s.pidKnown && !s.gateOpen)
    && (s.guardian.Spawned? ==> !s.pidKnown)
    // the acknowledgement travels once, in one direction
    && (s.acked ==> s.pidKnown) && (s.worker.Acking? ==> s.pidKnown && !s.acked)
    && (s.forwarded ==> s.acked) && (s.gate > 0 || s.ran ==> s.forwarded)
    && s.control + (if s.forwarded then 1 else 0) <= (if s.acked then 1 else 0)
    && s.gate + (if s.ran then 1 else 0) <= 1
    && (s.forwarded ==> !s.gateOpen)
    // the gate is open only while the guardian can still use it
    && (s.gateOpen ==> s.guardian.Spawned? || s.guardian.Polling? || s.guardian.ClosingGate?)
    && (s.child.Executing? ==> s.ran)
    // exit codes are truthful wherever they are
    && Truthful(s, s.verdict)
    && (s.guardian.ClosingGate? || s.guardian.Terminating? || s.guardian.Reporting? ==> Truthful(s, s.guardian.verdict))
    && (s.returned.Some? ==> s.child == Dead(s.returned.value) && s.guardian.GuardianExited? && s.worker.Left?)
    // a guardian that ends properly leaves no child
    && (s.guardian.Reporting? || s.guardian.Reported? || s.guardian.GuardianExited? ==> !ChildAlive(s))
  }

  lemma OpenPipesKeepsGood(s: Session)
    requires Good(s) && Can(s, OpenPipes)
    ensures Good(Do(s, OpenPipes)) && Do(s, OpenPipes).child == s.child
  {
  }

  lemma LaunchKeepsGood(s: Session, m: Move)
    requires Good(s) && Can(s, m) && (m.LaunchGuardian? || m.LaunchFails?)
    ensures Good(Do(s, m)) && Do(s, m).child == s.child
  {
  }

  lemma AcknowledgeKeepsGood(s: Session)
    requires Good(s) && Can(s, Acknowledge)
    ensures Good(Do(s, Acknowledge)) && Do(s, Acknowledge).child == s.child
  {
  }

  lemma StoppingKeepsGood(s: Session, m: Move)
    requires Good(s) && Can(s, m) && (m.Abort? || m.SeeGuardianDead? || m.LoopEnds?)
    ensures Good(Do(s, m)) && Do(s, m).child == s.child
  {
  }

  lemma CleanUpKeepsGood(s: Session)
    requires Good(s) && Can(s, CleanUp)
    ensures Good(Do(s, CleanUp)) && Do(s, CleanUp).child == s.child
  {
  }

  lemma LeaveKeepsGood(s: Session)
    requires Good(s) && Can(s, Leave)
    ensures Good(Do(s, Leave)) && Do(s, Leave).child == s.child
  {
  }

  lemma KillWorkerKeepsGood(s: Session)
    requires Good(s) && Can(s, KillWorker)
    ensures Good(Do(s, KillWorker)) && Do(s, KillWorker).child == s.child
  {
  }

  lemma WorkerMovesKeepGood(s: Session, m: Move)
    requires Good(s) && Can(s, m) && ByWorker(m)
    ensures Good(Do(s, m)) && Do(s, m).child == s.child
  {
    match m
    case OpenPipes => OpenPipesKeepsGood(s);
    case LaunchGuardian => LaunchKeepsGood(s, m);
    case LaunchFails => LaunchKeepsGood(s, m);
    case ReadStatus(n) => ReadStatusKeepsGood(s, n);
    case Drain => DrainKeepsGood(s);
    case Acknowledge => AcknowledgeKeepsGood(s);
    case CleanUp => CleanUpKeepsGood(s);
    case Leave => LeaveKeepsGood(s);
    case KillWorker => KillWorkerKeepsGood(s);
    case _ => StoppingKeepsGood(s, m);
  }

  /** Reading at most the two lines there can be. */
  lemma FeedShort(pidKnown: bool, verdict: Verdict, lines: seq<Line>)
    requires |lines| <= 2 && (|lines| == 2 ==> HasPid(lines) && HasVerdict(lines))
    requires HasPid(lines) ==> !pidKnown
    ensures Feed(pidKnown, verdict, lines)
         == Some((pidKnown || HasPid(lines), if HasVerdict(lines) then lines[|lines| - 1].verdict else verdict))
    decreases |lines|
  {
    if |lines| == 1 {
      assert lines[1..] == [];
    } else if |lines| == 2 {
      FeedShort(true, verdict, lines[1..]);
    }
  }

  lemma ReadStatusKeepsGood(s: Session, n: nat)
    requires Good(s) && Can(s, ReadStatus(n))
    ensures Good(Do(s, ReadStatus(n))) && Do(s, ReadStatus(n)).child == s.child
  {
    FeedShort(s.pidKnown, s.verdict, s.status[..n]);
  }

  lemma DrainKeepsGood(s: Session)
    requires Good(s) && Can(s, Drain)
    ensures Good(Do(s, Drain)) && Do(s, Drain).child == s.child
  {
    FeedShort(s.pidKnown, s.verdict, s.status[..|s.status|]);
  }

  lemma LaunchMovesKeepGood(s: Session, m: Move)
    requires Good(s) && Can(s, m) && (m.Probe? || m.SpawnChild? || m.SpawnFails? || m.WritePid?)
    ensures Good(Do(s, m))
  {
  }

  lemma PollingMovesKeepGood(s: Session, m: Move)
    requires Good(s) && Can(s, m) && (m.SeeStop? || m.SeeChildExit? || m.SeeDeadline?)
    ensures Good(Do(s, m))
  {
  }

  lemma ReadControlKeepsGood(s: Session)
    requires Good(s) && Can(s, ReadControl)
    ensures Good(Do(s, ReadControl))
  {
  }

  lemma CloseGateKeepsGood(s: Session)
    requires Good(s) && Can(s, CloseGate)
    ensures Good(Do(s, CloseGate))
  {
  }

  lemma EndingMovesKeepGood(s: Session, m: Move)
    requires Good(s) && Can(s, m) && (m.TerminateGroup? || m.Report?)
    ensures Good(Do(s, m))
  {
  }

  lemma GuardianEndKeepsGood(s: Session, m: Move)
    requires Good(s) && Can(s, m) && (m.GuardianExits? || m.KillGuardian?)
    ensures Good(Do(s, m))
  {
  }

  lemma ChildMovesKeepGood(s: Session, m: Move)
    requires Good(s) && Can(s, m) && (m.PassGate? || m.GateCloses? || m.ChildDies?)
    ensures Good(Do(s, m))
  {
  }

  lemma MovesKeepGood(s: Session, m: Move)
    requires Good(s) && Can(s, m)
    ensures Good(Do(s, m))
  {
    if ByWorker(m) { WorkerMovesKeepGood(s, m); }
    else if m.Probe? || m.SpawnChild? || m.SpawnFails? || m.WritePid? { LaunchMovesKeepGood(s, m); }
    else if m.TerminateGroup? || m.Report? { EndingMovesKeepGood(s, m); }
    else if m.GuardianExits? || m.KillGuardian? { GuardianEndKeepsGood(s, m); }
    else if m.PassGate? || m.GateCloses? || m.ChildDies? { ChildMovesKeepGood(s, m); }
    else if m.ReadControl? { ReadControlKeepsGood(s); }
    else if m.CloseGate? { CloseGateKeepsGood(s); }
    else { PollingMovesKeepGood(s, m); }
  }

  lemma StartLaunchesNothing(s: Session, m: Move)
    requires Can(s, m) && (m.Probe? || m.SpawnChild? || m.SpawnFails? || m.WritePid?)
    ensures WorkflowAlive(Do(s, m)) ==> WorkflowAlive(s)
  {
  }

  lemma PollingLaunchesNothing(s: Session, m: Move)
    requires Can(s, m) && (m.SeeStop? || m.SeeChildExit? || m.SeeDeadline? || m.ReadControl? || m.CloseGate?)
    ensures WorkflowAlive(Do(s, m)) ==> WorkflowAlive(s)
  {
  }

  lemma EndLaunchesNothing(s: Session, m: Move)
    requires Can(s, m) && (m.TerminateGroup? || m.Report? || m.GuardianExits? || m.KillGuardian?)
    ensures WorkflowAlive(Do(s, m)) ==> WorkflowAlive(s)
  {
  }

  lemma GateWasForwarded(s: Session)
    requires Good(s) && Can(s, PassGate)
    ensures s.pidKnown && s.acked && s.forwarded && !s.ran
  {
  }

  /** The launch gate: workflow code starts only after the worker has recorded the child's
      process id, has acknowledged it, and the guardian has passed the acknowledgement on. */
  lemma LaunchGate(s: Session, m: Move)
    requires Good(s) && Can(s, m) && !WorkflowAlive(s) && WorkflowAlive(Do(s, m))
    ensures m.PassGate? && s.pidKnown && s.acked && s.forwarded && !s.ran
  {
    if ByWorker(m) { WorkerMovesKeepGood(s, m); }
    else if m.PassGate? { GateWasForwarded(s); }
    else if m.Probe? || m.SpawnChild? || m.SpawnFails? || m.WritePid? { StartLaunchesNothing(s, m); }
    else if m.TerminateGroup? || m.Report? || m.GuardianExits? || m.KillGuardian? { EndLaunchesNothing(s, m); }
    else if !m.GateCloses? && !m.ChildDies? { PollingLaunchesNothing(s, m); }
  }

  /** The guardian's first look at the control pipe can never swallow an acknowledgement. */
  lemma ProbeTakesNothing(s: Session)
    requires Good(s) && Can(s, Probe)
    ensures s.control == 0 && Do(s, Probe).control == 0
  {
  }

  /** The activity lock: when nobody holds a copy of the descriptor, the worker is out of
      `execute`, the guardian is gone and so is the primary child. */
  lemma NoActivityMeansNobody(s: Session)
    requires Good(s) && s.activity == {}
    ensures !WorkerActive(s) && !GuardianAlive(s) && !ChildAlive(s)
  {
  }

  // ----- whole executions

  /** `ss` are the states of one execution from its start, `ms` the moves between them. */
  ghost predicate Execution(ss: seq<Session>, ms: seq<Move>) {
    && |ss| == |ms| + 1 && ss[0] == FRESH
    && forall i :: 0 <= i < |ms| ==> Moves(ss[i], ms[i], ss[i + 1])
  }

  ghost predicate Moves(s: Session, m: Move, s': Session) {
    Can(s, m) && s' == Do(s, m)
  }

  lemma {:induction false} ExecutionIsGood(ss: seq<Session>, ms: seq<Move>, i: nat)
    requires Execution(ss, ms) && i < |ss|
    ensures Good(ss[i])
  {
    if i > 0 {
      ExecutionIsGood(ss, ms, i - 1);
      assert Moves(ss[i - 1], ms[i - 1], ss[i]);
      MovesKeepGood(ss[i - 1], ms[i - 1]);
    }
  }

  /** The launch can no longer happen: the worker has stopped, or been killed, before it
      acknowledged, or the guardian has stopped, or been killed, before it passed that on. */
  predicate LaunchLost(s: Session) {
    && !s.forwarded
    && ((!s.acked && (s.worker.Unwinding? || s.worker.Waiting? || s.worker.Left? || s.worker.Lost?))
        || s.guardian.ClosingGate? || s.guardian.Terminating? || s.guardian.Reporting?
        || s.guardian.Reported? || s.guardian.GuardianExited? || s.guardian.GuardianKilled?)
  }

  lemma ReadingStaysLost(s: Session, m: Move)
    requires Good(s) && Can(s, m) && (m.ReadStatus? || m.Drain?) && LaunchLost(s)
    ensures LaunchLost(Do(s, m))
  {
    var n := if m.ReadStatus? then m.lines else |s.status|;
    FeedShort(s.pidKnown, s.verdict, s.status[..n]);
  }

  lemma WorkerStaysLost(s: Session, m: Move)
    requires Good(s) && Can(s, m) && ByWorker(m) && !m.ReadStatus? && !m.Drain? && LaunchLost(s)
    ensures LaunchLost(Do(s, m))
  {
  }

  lemma OthersStayLost(s: Session, m: Move)
    requires Good(s) && Can(s, m) && !ByWorker(m) && LaunchLost(s)
    ensures LaunchLost(Do(s, m))
  {
  }

  lemma LaunchStaysLost(s: Session, m: Move, s': Session)
    requires Good(s) && Moves(s, m, s') && LaunchLost(s)
    ensures LaunchLost(s') && Good(s')
  {
    if m.ReadStatus? || m.Drain? { ReadingStaysLost(s, m); } else if ByWorker(m) { WorkerStaysLost(s, m); } else { OthersStayLost(s, m); }
    MovesKeepGood(s, m);
  }

  lemma LostMeansIdle(s: Session)
    requires Good(s) && LaunchLost(s)
    ensures !s.ran && !WorkflowAlive(s)
  {
  }

  lemma {:induction false} LaunchIsLostForGood(ss: seq<Session>, ms: seq<Move>, i: nat, j: nat)
    requires Execution(ss, ms) && i <= j < |ss| && LaunchLost(ss[i])
    ensures LaunchLost(ss[j]) && Good(ss[j])
    decreases j
  {
    if i == j {
      ExecutionIsGood(ss, ms, j);
    } else {
      LaunchIsLostForGood(ss, ms, i, j - 1);
      LaunchStaysLost(ss[j - 1], ms[j - 1], ss[j]);
    }
  }

  /** If the worker or the guardian goes first, the workflow never runs, then or later. */
  lemma LostLaunchNeverRuns(ss: seq<Session>, ms: seq<Move>, i: nat, j: nat)
    requires Execution(ss, ms) && i <= j < |ss| && LaunchLost(ss[i])
    ensures !ss[j].ran && !WorkflowAlive(ss[j])
  {
    LaunchIsLostForGood(ss, ms, i, j);
    LostMeansIdle(ss[j]);
  }

  /** Nothing is left that could move. */
  lemma ReturnIsTheEnd(s: Session, m: Move)
    requires Good(s) && s.returned.Some?
    ensures !Can(s, m)
  {
  }

  lemma ReturnedIsDead(s: Session)
    requires Good(s) && s.returned.Some?
    ensures s.child == Dead(s.returned.value) && !WorkerActive(s) && !GuardianAlive(s) && !ChildAlive(s)
  {
  }

  /** When `execute` returns an exit code, it is the dead child's code, worker, guardian and child
      are gone, and nothing happens in this execution afterwards. */
  lemma ReturnedMeansDead(ss: seq<Session>, ms: seq<Move>, i: nat)
    requires Execution(ss, ms) && i < |ss| && ss[i].returned.Some?
    ensures ss[i].child == Dead(ss[i].returned.value)
    ensures !WorkerActive(ss[i]) && !GuardianAlive(ss[i]) && !ChildAlive(ss[i])
    ensures i == |ms|
  {
    ExecutionIsGood(ss, ms, i);
    ReturnedIsDead(ss[i]);
    assert i < |ms| ==> Moves(ss[i], ms[i], ss[i + 1]);
    if i < |ms| {
      ReturnIsTheEnd(ss[i], ms[i]);
      assert false;
    }
  }

  predicate Unkilled(ms: seq<Move>) {
    forall i :: 0 <= i < |ms| ==> !ms[i].KillWorker?
  }

  lemma Extend(ss: seq<Session>, ms: seq<Move>, m: Move) returns (ss': seq<Session>, ms': seq<Move>)
    requires Execution(ss, ms) && Can(ss[|ms|], m)
    ensures Execution(ss', ms') && |ms'| == |ms| + 1 && ss'[|ms'|] == Do(ss[|ms|], m)
    ensures Unkilled(ms) && !m.KillWorker? ==> Unkilled(ms')
  {
    ss', ms' := ss + [Do(ss[|ms|], m)], ms + [m];
    forall i | 0 <= i < |ms'| ensures Moves(ss'[i], ms'[i], ss'[i + 1]) {
      if i < |ms| { assert Moves(ss[i], ms[i], ss[i + 1]); }
    }
  }

  lemma OrdinaryStart() returns (ss: seq<Session>, ms: seq<Move>)
    ensures Execution(ss, ms) && Unkilled(ms)
    ensures ss[|ms|] == Session(Watching, Polling, Gated, 0, true, [PidLine], 0, true, false, GuardFailed, false, false,
                                {WorkerParty, GuardianParty, ChildParty}, false, false, false, None)
  {
    ss, ms := Extend([FRESH], [], OpenPipes);
    ss, ms := Extend(ss, ms, LaunchGuardian);
    ss, ms := Extend(ss, ms, Probe);
    ss, ms := Extend(ss, ms, SpawnChild);
    ss, ms := Extend(ss, ms, WritePid);
  }

  lemma OrdinaryLaunch() returns (ss: seq<Session>, ms: seq<Move>)
    ensures Execution(ss, ms) && Unkilled(ms)
    ensures ss[|ms|] == Session(Watching, Polling, Gated, 0, true, [], 1, false, true, GuardFailed, false, false,
                                {WorkerParty, GuardianParty, ChildParty}, true, true, false, None)
  {
    ss, ms := OrdinaryStart();
    FeedShort(false, GuardFailed, [PidLine]);
    assert ss[|ms|].status[..1] == [PidLine];
    ss, ms := Extend(ss, ms, ReadStatus(1));
    ss, ms := Extend(ss, ms, Acknowledge);
    ss, ms := Extend(ss, ms, ReadControl);
  }

  /** The protocol does launch: without kills an execution runs the workflow and returns
      whatever code it ends with. */
  lemma OrdinaryExecution(code: int) returns (ss: seq<Session>, ms: seq<Move>)
    ensures Execution(ss, ms) && ss[|ms|].ran && ss[|ms|].returned == Some(code)
    ensures Unkilled(ms) && ss[|ms|].worker.Left? && ss[|ms|].activity == {}
  {
    ss, ms := OrdinaryLaunch();
    ss, ms := Extend(ss, ms, PassGate);
    ss, ms := Extend(ss, ms, ChildDies(code));
    ss, ms := Extend(ss, ms, SeeChildExit);
    ss, ms := Extend(ss, ms, CloseGate);
    ss, ms := Extend(ss, ms, TerminateGroup(code));
    ss, ms := Extend(ss, ms, Report);
    ss, ms := Extend(ss, ms, GuardianExits);
    FeedShort(true, GuardFailed, [VerdictLine(Exited(code))]);
    assert ss[|ms|].status[..1] == [VerdictLine(Exited(code))];
    ss, ms := Extend(ss, ms, Drain);
    ss, ms := Extend(ss, ms, LoopEnds);
    ss, ms := Extend(ss, ms, CleanUp);
    ss, ms := Extend(ss, ms, Leave);
  }
}
