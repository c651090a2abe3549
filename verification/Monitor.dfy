/** The deployment monitor at work (scenarios/deploy_monitor/workflow/monitoring/service.py):
    deploy once, wait for the rollout, then require complete evidence for the whole window.
    Whatever the services answer and however the clock runs on is left open. */
module Monitor {
  import opened Prelude
  import opened Heartbeats
  import opened Monitoring
  import opened MonitorVerdict

  // ----- the world and the monitor

  /** The services and the clock. Every reply is open; the clock never runs backwards, and
      sleeping for a negative time raises. */
  class World {
    var now: real
    ghost var sleeps: seq<real>
    ghost var requests: seq<Request>

    constructor (start: real)
      ensures now == start && sleeps == [] && requests == []
    {
      now := start;
      sleeps := [];
      requests := [];
    }

    method Monotonic() returns (t: real)
      modifies this`now
      ensures t == now && now >= old(now)
    {
      var passed: real :| passed >= 0.0;
      now := now + passed;
      t := now;
    }

    method Sleep(seconds: real) returns (slept: bool)
      modifies this`now, this`sleeps
      ensures sleeps == old(sleeps) + [seconds] && slept == (seconds >= 0.0)
      ensures now >= old(now) && (slept ==> now >= old(now) + seconds)
    {
      sleeps := sleeps + [seconds];
      var passed: real :| passed >= 0.0;
      slept := seconds >= 0.0;
      now := if slept then now + seconds + passed else now + passed;
    }

    method Deploy(service: string, version: string, requestKey: string) returns (r: Reply<Receipt>)
      modifies this`now, this`requests
      ensures now >= old(now) && requests == old(requests) + [ToDeploy(service, version, requestKey)]
    {
      requests := requests + [ToDeploy(service, version, requestKey)];
      var took: real :| took >= 0.0;
      now := now + took;
      r := *;
    }

    method Status(deploymentId: string) returns (r: Reply<DeploymentStatus>)
      modifies this`now, this`requests
      ensures now >= old(now) && requests == old(requests) + [ToStatus(deploymentId)]
    {
      requests := requests + [ToStatus(deploymentId)];
      var took: real :| took >= 0.0;
      now := now + took;
      r := *;
    }

    method Read(query: Query) returns (r: Reply<Page>)
      modifies this`now, this`requests
      ensures now >= old(now) && requests == old(requests) + [ToRead(query)]
    {
      requests := requests + [ToRead(query)];
      var took: real :| took >= 0.0;
      now := now + took;
      r := *;
    }
  }

  /** `Crashed` is an error that is no `Unavailable`: the pause before another look at the rollout
      can come out negative. */
  datatype RunResult = Result(outcome: Outcome, reason: Reason, deploymentId: Option<string>, observed: real, checked: nat,
    deployed: bool) | Crashed

  method WithEvents(receipt: Receipt, start: real, end: real, events: seq<Event>, page: seq<Event>)
    returns (r: Option<seq<Event>>)
    ensures r == WithPage(receipt, start, end, events, page)
  {
    var all := events;
    for i := 0 to |page|
      invariant WithPage(receipt, start, end, all, page[i..]) == WithPage(receipt, start, end, events, page)
    {
      var e := page[i];
      assert page[i..][0] == e && page[i..][1..] == page[i + 1..];
      if e.replica !in receipt.replicas || !(start <= e.at <= end) { return None; }
      if all != [] && e.sequence <= all[|all| - 1].sequence { return None; }
      all := all + [e];
    }
    return Some(all);
  }

  /** The scan of the log: at most `PAGES` pages, following the cursor. */
  method Interval(world: World, receipt: Receipt, start: real, end: real)
    returns (r: Option<(seq<Event>, real)>, ghost replies: seq<Reply<Page>>)
    modifies world`now, world`requests
    ensures world.now >= old(world.now)
    ensures world.requests == old(world.requests) + Asked(receipt, start, end, replies)
    ensures |replies| <= PAGES
    ensures forall k :: 0 <= k < |replies| ==> ReadAll(receipt, start, end, START, replies[..k]).More?
    ensures match ReadAll(receipt, start, end, START, replies)
      case Done(events, watermark) => r == Some((events, watermark))
      case Rejected => r == None
      case More(_) => r == None && |replies| == PAGES
  {
    var scan := START;
    replies := [];
    for n := 0 to PAGES
      invariant |replies| == n && world.now >= old(world.now)
      invariant world.requests == old(world.requests) + Asked(receipt, start, end, replies)
      invariant ReadAll(receipt, start, end, START, replies) == More(scan)
      invariant forall k :: 0 <= k < |replies| ==> ReadAll(receipt, start, end, START, replies[..k]).More?
    {
      var reply := world.Read(Query(receipt.deploymentId, start, end, scan.cursor));
      replies := ReadOn(receipt, start, end, scan, replies, reply);
      if reply.Unavailable? { return None, replies; }
      var page := reply.value;
      if page.deploymentId != receipt.deploymentId { return None, replies; }
      if page.start != start || page.end != end || page.gap { return None, replies; }
      if scan.watermark.Some? && page.completeThrough != scan.watermark.value { return None, replies; }
      var events := WithEvents(receipt, start, end, scan.events, page.events);
      if events.None? { return None, replies; }
      if page.nextCursor.None? { return Some((events.value, page.completeThrough)), replies; }
      if page.nextCursor.value <= scan.cursor { return None, replies; }
      scan := Scan(page.nextCursor.value, events.value, Some(page.completeThrough));
    }
    return None, replies;
  }

  // ----- observing the window

  /** What a round ends with. */
  datatype RoundEnd = RoundEnd(verdict: Verdict, elapsed: real)

  /** One round: the time, the status, the log. */
  method OneRound(world: World, inputs: Inputs, receipt: Receipt, epoch: real, began: real, before: Verdict)
    returns (e: RoundEnd, ghost round: Round)
    requires before.Continue?
    modifies world`now, world`requests
    ensures e.verdict == Judge(inputs, receipt, epoch, before, round) && e.elapsed == round.elapsed
    ensures ScannedInBudget(inputs, receipt, epoch, round)
    ensures old(world.now) <= began + round.elapsed <= world.now
    ensures world.requests == old(world.requests) + [ToStatus(receipt.deploymentId)]
      + Asked(receipt, epoch, epoch + Least(round.elapsed, inputs.duration), round.replies)
  {
    var reading := world.Monotonic();
    var elapsed := reading - began;
    var observed := Least(elapsed, inputs.duration);
    var status := world.Status(receipt.deploymentId);
    round := Round(elapsed, status, []);
    assert Asked(receipt, epoch, epoch + observed, []) == [];
    if status.Unavailable? || status.value.deploymentId != receipt.deploymentId {
      return RoundEnd(Finish(Inconclusive, NoEvidence, before.checked), elapsed), round;
    }
    if Distance(status.value.observedAt - epoch, elapsed) > 2.0 {
      return RoundEnd(Finish(Inconclusive, NoEvidence, before.checked), elapsed), round;
    }
    if !Ready(receipt, status.value.replicas) {
      return RoundEnd(Finish(Fail, Regressed, before.checked), elapsed), round;
    }
    var end := epoch + observed;
    var scan, replies := Interval(world, receipt, epoch, end);
    round := Round(elapsed, status, replies);
    forall k | 0 <= k < |replies| ensures ScanOf(inputs, receipt, epoch, round.(replies := replies[..k])).More? {}
    if scan.None? { return RoundEnd(Finish(Inconclusive, NoEvidence, before.checked), elapsed), round; }
    var v := JudgeScan(inputs, receipt, epoch, before, elapsed, scan.value.0, scan.value.1);
    return RoundEnd(v, elapsed), round;
  }

  method JudgeScan(inputs: Inputs, receipt: Receipt, epoch: real, before: Verdict, elapsed: real, events: seq<Event>,
      watermark: real)
    returns (v: Verdict)
    requires before.Continue?
    ensures v == JudgeLog(inputs, receipt, epoch, before, elapsed, events, watermark)
  {
    var checked := |events|;
    if watermark < before.watermark { return Finish(Inconclusive, NoEvidence, checked); }
    if exists e :: e in events && e.level == ErrorLevel { return Finish(Fail, ErrorSeen, checked); }
    if exists e :: e in events && e.version != inputs.version { return Finish(Fail, VersionChanged, checked); }
    var end := epoch + Least(elapsed, inputs.duration);
    var complete := watermark >= end && AllBeat(receipt.replicas, events, epoch, end);
    if elapsed >= inputs.duration && complete { return Finish(Pass, Verified, checked); }
    if elapsed >= inputs.duration + inputs.grace { return Finish(Inconclusive, CoverageNotProven, checked); }
    return Continue(watermark, checked);
  }

  /** The pauses after the first `n` of the world's were all positive. */
  predicate PositiveFrom(sleeps: seq<real>, n: nat) {
    n <= |sleeps| && forall k :: n <= k < |sleeps| ==> sleeps[k] > 0.0
  }

  /** The observation ends after a bounded number of rounds, with what the rounds have shown, and
      only sleeps for positive times. */
  method Observe(world: World, inputs: Inputs, receipt: Receipt, epoch: real)
    returns (v: Verdict, observed: real, ghost rounds: seq<Round>)
    requires ValidInputs(inputs)
    modifies world
    ensures Observed(inputs, receipt, epoch, rounds, v)
    ensures DecidedAs(inputs, receipt, epoch, 0.0, rounds, v.reason) && v.outcome == OutcomeOf(v.reason)
    ensures v.checked == CheckedIn(inputs, receipt, epoch, 0, rounds)
    ensures observed == Least(rounds[|rounds| - 1].elapsed, inputs.duration)
    ensures PositiveFrom(world.sleeps, |old(world.sleeps)|)
  {
    var began := world.Monotonic();
    v, rounds := FIRST, [];
    while true
      invariant Observing(inputs, receipt, epoch, rounds, v) && world.now >= began
      invariant rounds != [] ==> MayFollow(inputs, rounds[|rounds| - 1], world.now - began)
      invariant PositiveFrom(world.sleeps, |old(world.sleeps)|)
      invariant rounds == [] || |rounds| < MostRounds(inputs.duration + inputs.grace, inputs.poll)
      decreases MostRounds(inputs.duration + inputs.grace, inputs.poll) - |rounds|
    {
      var e, round := OneRound(world, inputs, receipt, epoch, began, v);
      ObserveOneMore(inputs, receipt, epoch, rounds, v, round);
      rounds := rounds + [round];
      v := e.verdict;
      observed := Least(e.elapsed, inputs.duration);
      if v.Finish? {
        ObservedExactlyWhen(inputs, receipt, epoch, rounds, v.reason);
        return;
      }
      var slept := world.Sleep(Least(inputs.poll, inputs.duration + inputs.grace - e.elapsed));
    }
  }

  // ----- waiting for the rollout

  datatype Rollout = RolledOut(epoch: real) | Stopped(outcome: Outcome, reason: Reason) | Failing

  /** One look: the status, and the clock as often as it is needed. */
  method OneTry(world: World, inputs: Inputs, receipt: Receipt, started: real) returns (step: RolloutStep, third: real, ghost t: Try)
    requires world.now >= started
    modifies world`now, world`requests
    ensures step == JudgeTry(inputs, receipt, t) && third == t.third
    ensures old(world.now) <= started + t.first && t.first <= t.second <= t.third <= world.now - started
    ensures world.requests == old(world.requests) + [ToStatus(receipt.deploymentId)]
  {
    var status := world.Status(receipt.deploymentId);
    third := world.now - started;
    t := Try(status, third, third, third);
    if status.Unavailable? || status.value.deploymentId != receipt.deploymentId { return Abort, third, t; }
    var first := world.Monotonic();
    third := first - started;
    t := Try(status, third, third, third);
    if first - started > inputs.rolloutTimeout { return TimedOut, third, t; }
    if Ready(receipt, status.value.replicas) { return Rolled(status.value.observedAt), third, t; }
    var second := world.Monotonic();
    third := second - started;
    t := Try(status, first - started, third, third);
    if second - started >= inputs.rolloutTimeout { return TimedOut, third, t; }
    var last := world.Monotonic();
    third := last - started;
    t := Try(status, first - started, second - started, third);
    return Again, third, t;
  }

  /** Waits until the deployment is ready, at most for the timeout. Between two readings of the
      clock the timeout can pass; then the pause is negative and raises. */
  method RollOut(world: World, inputs: Inputs, receipt: Receipt, started: real) returns (r: Rollout, ghost tries: seq<Try>)
    requires ValidInputs(inputs) && world.now >= started
    modifies world
    ensures world.now >= old(world.now) && Tried(inputs, receipt, tries)
    ensures var last := tries[|tries| - 1];
      match JudgeTry(inputs, receipt, last)
      case Abort => r == Stopped(Inconclusive, NoEvidence)
      case TimedOut => r == Stopped(Fail, RolloutTimeout)
      case Rolled(epoch) => r == RolledOut(epoch)
      case Again => r == Failing && last.second < inputs.rolloutTimeout < last.third
    ensures |old(world.requests)| <= |world.requests| && old(world.requests) <= world.requests
  {
    tries := [];
    while true
      invariant world.now >= started && world.now >= old(world.now) && Trying(inputs, receipt, tries)
      invariant tries != [] ==> MayTryAgain(inputs, tries[|tries| - 1], world.now - started)
      invariant tries == [] || |tries| < MostRounds(inputs.rolloutTimeout, inputs.poll)
      invariant old(world.requests) <= world.requests
      decreases MostRounds(inputs.rolloutTimeout, inputs.poll) - |tries|
    {
      var step, third, t := OneTry(world, inputs, receipt, started);
      TryOneMore(inputs, receipt, tries, t);
      tries := tries + [t];
      match step {
        case Abort => return Stopped(Inconclusive, NoEvidence), tries;
        case TimedOut => return Stopped(Fail, RolloutTimeout), tries;
        case Rolled(epoch) => return RolledOut(epoch), tries;
        case Again =>
      }
      var slept := world.Sleep(Least(inputs.poll, inputs.rolloutTimeout - third));
      if !slept { return Failing, tries; }
    }
  }

  // ----- a whole run

  predicate GoodReceipt(inputs: Inputs, receipt: Receipt) {
    receipt.service == inputs.service && receipt.version == inputs.version && Distinct(receipt.replicas)
  }

  /** Everything a run has been told after the receipt. */
  datatype Told = Told(receipt: Receipt, tries: seq<Try>, rounds: seq<Round>)

  /** What stands behind a pass: the rollout came through, and the rounds after it prove the whole
      window. */
  ghost predicate Proven(inputs: Inputs, told: Told) {
    && GoodReceipt(inputs, told.receipt) && OnlyLastStops(inputs, told.receipt, told.tries) && told.rounds != []
    && var last := JudgeTry(inputs, told.receipt, told.tries[|told.tries| - 1]);
    && last.Rolled?
    && WindowIsCovered(inputs, told.receipt, last.epoch, told.rounds[|told.rounds| - 1])
    && WatermarksGrow(inputs, told.receipt, last.epoch, 0.0, told.rounds)
    && forall i :: 0 <= i < |told.rounds| ==> Clean(inputs, told.receipt, last.epoch, told.rounds[i])
  }

  /** The result of a run whose deployment was accepted, from what the run has been told. */
  ghost predicate Tells(inputs: Inputs, told: Told, r: RunResult) {
    && Tried(inputs, told.receipt, told.tries)
    && var id := Some(told.receipt.deploymentId);
    match JudgeTry(inputs, told.receipt, told.tries[|told.tries| - 1])
    case Abort => r == Result(Inconclusive, NoEvidence, id, 0.0, 0, true)
    case TimedOut => r == Result(Fail, RolloutTimeout, id, 0.0, 0, true)
    case Again => r == Crashed && Overshoots(inputs, told.receipt, told.tries[|told.tries| - 1])
    case Rolled(epoch) =>
      && told.rounds != []
      && var v := JudgeAll(inputs, told.receipt, epoch, FIRST, told.rounds);
      && Observed(inputs, told.receipt, epoch, told.rounds, v)
      && r == Result(v.outcome, v.reason, id, Least(told.rounds[|told.rounds| - 1].elapsed, inputs.duration), v.checked, true)
  }

  // ----- what a run says, by what was true of the deployment

  /** A look without a usable answer for this deployment. */
  predicate LookFails(receipt: Receipt, t: Try) {
    t.status.Unavailable? || t.status.value.deploymentId != receipt.deploymentId
  }

  /** A look that finds the deployment ready in time. */
  predicate LookFindsReady(inputs: Inputs, receipt: Receipt, t: Try) {
    !LookFails(receipt, t) && t.first <= inputs.rolloutTimeout && Ready(receipt, t.status.value.replicas)
  }

  /** A look that comes too late, or finds the deployment not ready when the time is over. */
  predicate LookTimesOut(inputs: Inputs, receipt: Receipt, t: Try) {
    && !LookFails(receipt, t)
    && (t.first > inputs.rolloutTimeout
        || (!Ready(receipt, t.status.value.replicas) && t.second >= inputs.rolloutTimeout))
  }

  /** The looks before the last found the deployment not ready within the time; the result is
      that of the last look, or, once it is ready, that of the observation. */
  ghost predicate Says(inputs: Inputs, told: Told, r: RunResult) {
    && told.tries != []
    && (forall i :: 0 <= i < |told.tries| - 1 ==>
          && !LookFails(told.receipt, told.tries[i]) && !LookFindsReady(inputs, told.receipt, told.tries[i])
          && !LookTimesOut(inputs, told.receipt, told.tries[i]))
    && var (t, id) := (told.tries[|told.tries| - 1], Some(told.receipt.deploymentId));
    if LookFails(told.receipt, t) then r == Result(Inconclusive, NoEvidence, id, 0.0, 0, true)
    else if LookTimesOut(inputs, told.receipt, t) then r == Result(Fail, RolloutTimeout, id, 0.0, 0, true)
    else if LookFindsReady(inputs, told.receipt, t) then
      && r.Result? && r.deploymentId == id && r.deployed
      && DecidedAs(inputs, told.receipt, t.status.value.observedAt, 0.0, told.rounds, r.reason)
      && r.outcome == OutcomeOf(r.reason)
      && r.observed == Least(told.rounds[|told.rounds| - 1].elapsed, inputs.duration)
      && r.checked == CheckedIn(inputs, told.receipt, t.status.value.observedAt, 0, told.rounds)
    else r.Crashed? && t.second < inputs.rolloutTimeout < t.third
  }

  lemma TellsMeansSays(inputs: Inputs, told: Told, r: RunResult)
    requires ValidInputs(inputs) && Tells(inputs, told, r)
    ensures Says(inputs, told, r)
  {
    var last := JudgeTry(inputs, told.receipt, told.tries[|told.tries| - 1]);
    if last.Rolled? {
      ObservedExactlyWhen(inputs, told.receipt, last.epoch, told.rounds, r.reason);
    }
  }

  /** A run passes exactly when a look finds the deployment ready in time and the observation
      after it, spotless in every round, comes to show the whole window. */
  lemma PassedExactlyWhen(inputs: Inputs, told: Told, r: RunResult)
    requires Says(inputs, told, r)
    ensures r.Result? && r.outcome == Pass <==>
      var t := told.tries[|told.tries| - 1];
      && LookFindsReady(inputs, told.receipt, t)
      && DecidedAs(inputs, told.receipt, t.status.value.observedAt, 0.0, told.rounds, Verified)
  {
    var t := told.tries[|told.tries| - 1];
    if LookFindsReady(inputs, told.receipt, t) {
      PassedMeansVerified(inputs, told.receipt, t.status.value.observedAt, told.rounds, r.reason);
    }
  }

  ghost predicate SomeOvershoots(inputs: Inputs, told: Told) {
    exists i :: 0 <= i < |told.tries| && Overshoots(inputs, told.receipt, told.tries[i])
  }

  /** A run crashes exactly when the timeout passes between the two readings of some look. */
  lemma CrashedExactlyWhen(inputs: Inputs, told: Told, r: RunResult)
    requires Tells(inputs, told, r)
    ensures r.Crashed? <==> SomeOvershoots(inputs, told)
  {
    var n := |told.tries| - 1;
    forall i | 0 <= i < n ensures !Overshoots(inputs, told.receipt, told.tries[i]) {
      assert MayTryAgain(inputs, told.tries[i + 1 - 1], told.tries[i + 1].first);
    }
    if r.Crashed? { assert Overshoots(inputs, told.receipt, told.tries[n]); }
  }

  /** That does happen, whatever the inputs and the deployment: on the first look already. */
  lemma NegativePauseHappens(inputs: Inputs, receipt: Receipt) returns (told: Told)
    requires ValidInputs(inputs)
    ensures told.receipt == receipt && Tells(inputs, told, Crashed)
    ensures var t := told.tries[0]; 0.0 == t.first < t.second < inputs.rolloutTimeout < t.third
  {
    var replicas := if receipt.replicas == [] then [Replica("", "", false)] else [];
    var status := DeploymentStatus(receipt.deploymentId, 0.0, replicas);
    assert !Ready(receipt, replicas);
    var t := Try(Answer(status), 0.0, inputs.rolloutTimeout / 2.0, inputs.rolloutTimeout + 1.0);
    told := Told(receipt, [t], []);
  }

  lemma TellsOfPass(inputs: Inputs, told: Told, r: RunResult)
    requires ValidInputs(inputs) && GoodReceipt(inputs, told.receipt) && Tells(inputs, told, r)
    requires r.Result? && r.outcome == Pass
    ensures Proven(inputs, told)
  {
    var last := JudgeTry(inputs, told.receipt, told.tries[|told.tries| - 1]);
    PassIsProven(inputs, told.receipt, last.epoch, told.rounds);
  }

  /** A run deploys once, says what it has been told, and passes only on complete evidence. */
  method Run(world: World, inputs: Inputs) returns (r: RunResult, ghost told: Option<Told>)
    requires ValidInputs(inputs)
    modifies world
    ensures told.None? ==> r.Result? && r.outcome == Inconclusive && r.deployed == r.deploymentId.Some?
    ensures told.Some? ==> GoodReceipt(inputs, told.value.receipt) && Tells(inputs, told.value, r)
    ensures told.Some? ==> Says(inputs, told.value, r)
    ensures r.Result? && r.outcome == Pass ==> told.Some? && Proven(inputs, told.value)
    ensures r.Crashed? <==> told.Some? && SomeOvershoots(inputs, told.value)
  {
    var started := world.Monotonic();
    told := None;
    var reply := world.Deploy(inputs.service, inputs.version, inputs.requestKey);
    if reply.Unavailable? { return Result(Inconclusive, NoEvidence, None, 0.0, 0, false), told; }
    var receipt := reply.value;
    if receipt.service != inputs.service || receipt.version != inputs.version || !Distinct(receipt.replicas) {
      return Result(Inconclusive, NoEvidence, Some(receipt.deploymentId), 0.0, 0, true), told;
    }
    var rollout, tries := RollOut(world, inputs, receipt, started);
    match rollout
    case Failing =>
      r, told := Crashed, Some(Told(receipt, tries, []));
      CrashedExactlyWhen(inputs, told.value, r);
      TellsMeansSays(inputs, told.value, r);
    case Stopped(outcome, reason) =>
      r, told := Result(outcome, reason, Some(receipt.deploymentId), 0.0, 0, true), Some(Told(receipt, tries, []));
      CrashedExactlyWhen(inputs, told.value, r);
      TellsMeansSays(inputs, told.value, r);
    case RolledOut(epoch) =>
      var v, observed, rounds := Observe(world, inputs, receipt, epoch);
      r := Result(v.outcome, v.reason, Some(receipt.deploymentId), observed, v.checked, true);
      told := Some(Told(receipt, tries, rounds));
      CrashedExactlyWhen(inputs, told.value, r);
      TellsMeansSays(inputs, told.value, r);
      if v.outcome == Pass { TellsOfPass(inputs, told.value, r); }
  }
}
