/** The decisions of the deployment monitor (scenarios/deploy_monitor/workflow/monitoring/service.py)
    as functions of what it is told, what a pass proves, and how long it can take. */
module Monitoring {
  import opened Prelude
  import opened Heartbeats

  datatype Inputs = Inputs(service: string, version: string, requestKey: string, duration: real, rolloutTimeout: real,
    grace: real, poll: real)

  /** The ranges the input contract enforces; `duration` is in seconds. */
  predicate ValidInputs(x: Inputs) {
    x.duration > 0.0 && x.rolloutTimeout > 0.0 && x.grace >= 0.0 && x.poll > 0.0
  }

  datatype Receipt = Receipt(deploymentId: string, service: string, version: string, replicas: seq<string>)

  datatype Replica = Replica(name: string, version: string, ready: bool)

  datatype DeploymentStatus = DeploymentStatus(deploymentId: string, observedAt: real, replicas: seq<Replica>)

  datatype Query = Query(deploymentId: string, start: real, end: real, cursor: nat)

  datatype Page = Page(deploymentId: string, start: real, end: real, completeThrough: real, gap: bool,
    events: seq<Event>, nextCursor: Option<nat>)

  /** A reply, or no usable one: `Unavailable` is the source's exception. */
  datatype Reply<+T> = Answer(value: T) | Unavailable

  datatype Outcome = Pass | Fail | Inconclusive

  datatype Reason = RolloutTimeout | Regressed | ErrorSeen | VersionChanged | Verified | CoverageNotProven | NoEvidence

  // ----- readiness

  predicate Ready(receipt: Receipt, replicas: seq<Replica>) {
    && |replicas| == |receipt.replicas|
    && (set r | r in replicas :: r.name) == Elements(receipt.replicas)
    && forall r :: r in replicas ==> r.version == receipt.version && r.ready
  }

  // ----- one scan of the log

  const PAGES := 128

  datatype Scan = Scan(cursor: nat, events: seq<Event>, watermark: Option<real>)

  const START := Scan(0, [], None)

  /** How far a scan has come. */
  datatype Progress = More(scan: Scan) | Done(events: seq<Event>, watermark: real) | Rejected

  predicate FitsAfter(receipt: Receipt, start: real, end: real, events: seq<Event>, e: Event) {
    && e.replica in receipt.replicas && start <= e.at <= end
    && (events != [] ==> events[|events| - 1].sequence < e.sequence)
  }

  /** The events with those of a page behind them, unless one does not fit. */
  function WithPage(receipt: Receipt, start: real, end: real, events: seq<Event>, page: seq<Event>): Option<seq<Event>>
    decreases |page|
  {
    if page == [] then Some(events)
    else if FitsAfter(receipt, start, end, events, page[0]) then
      WithPage(receipt, start, end, events + [page[0]], page[1..])
    else None
  }

  function ReadPage(receipt: Receipt, start: real, end: real, s: Scan, page: Page): Progress {
    if page.deploymentId != receipt.deploymentId || page.start != start || page.end != end || page.gap then Rejected
    else if s.watermark.Some? && page.completeThrough != s.watermark.value then Rejected
    else
      var events := WithPage(receipt, start, end, s.events, page.events);
      if events.None? then Rejected
      else if page.nextCursor.None? then Done(events.value, page.completeThrough)
      else if page.nextCursor.value <= s.cursor then Rejected
      else More(Scan(page.nextCursor.value, events.value, Some(page.completeThrough)))
  }

  function ReadAll(receipt: Receipt, start: real, end: real, s: Scan, replies: seq<Reply<Page>>): Progress
    decreases |replies|
  {
    if replies == [] then More(s)
    else if replies[0].Unavailable? then Rejected
    else
      match ReadPage(receipt, start, end, s, replies[0].value)
      case More(s') => ReadAll(receipt, start, end, s', replies[1..])
      case other => other
  }

  // ----- what a complete scan has shown

  ghost predicate SequencesIncrease(events: seq<Event>) {
    forall i, j :: 0 <= i < j < |events| ==> events[i].sequence < events[j].sequence
  }

  ghost predicate Correlated(receipt: Receipt, start: real, end: real, events: seq<Event>) {
    && SequencesIncrease(events) && InWindow(events, start, end)
    && forall e :: e in events ==> e.replica in receipt.replicas
  }

  lemma EventKeepsCorrelated(receipt: Receipt, start: real, end: real, events: seq<Event>, e: Event)
    requires Correlated(receipt, start, end, events) && FitsAfter(receipt, start, end, events, e)
    ensures Correlated(receipt, start, end, events + [e])
  {
    forall i, j | 0 <= i < j < |events + [e]| ensures (events + [e])[i].sequence < (events + [e])[j].sequence {
      if j == |events| && i < |events| - 1 { assert events[i].sequence < events[|events| - 1].sequence; }
    }
    assert forall x :: x in events + [e] <==> x in events || x == e;
  }

  lemma {:induction false} PageKeepsCorrelated(receipt: Receipt, start: real, end: real, events: seq<Event>, page: seq<Event>)
    requires Correlated(receipt, start, end, events) && WithPage(receipt, start, end, events, page).Some?
    ensures var r := WithPage(receipt, start, end, events, page).value;
      r == events + page && Correlated(receipt, start, end, r)
    decreases |page|
  {
    if page == [] {
      assert events + page == events;
    } else {
      var e := page[0];
      EventKeepsCorrelated(receipt, start, end, events, e);
      PageKeepsCorrelated(receipt, start, end, events + [e], page[1..]);
      assert events + [e] + page[1..] == events + page;
    }
  }

  function EventsOf(replies: seq<Reply<Page>>): seq<Event> {
    if replies == [] then []
    else (if replies[0].Answer? then replies[0].value.events else []) + EventsOf(replies[1..])
  }

  /** Every page was answered for this deployment and window, without a gap and with the same
      watermark, and only the last one has no successor. */
  ghost predicate AllPages(receipt: Receipt, start: real, end: real, replies: seq<Reply<Page>>, watermark: real) {
    && replies != []
    && (forall i :: 0 <= i < |replies| ==>
        && replies[i].Answer?
        && var p := replies[i].value;
        && p.deploymentId == receipt.deploymentId && p.start == start && p.end == end && !p.gap
        && p.completeThrough == watermark
        && (p.nextCursor.None? <==> i == |replies| - 1))
    && forall i, j :: 0 <= i < j < |replies| - 1 ==> replies[i].value.nextCursor.value < replies[j].value.nextCursor.value
  }

  lemma {:induction false} ScanIsComplete(receipt: Receipt, start: real, end: real, s: Scan, replies: seq<Reply<Page>>)
    requires Correlated(receipt, start, end, s.events) && ReadAll(receipt, start, end, s, replies).Done?
    requires forall k :: 0 <= k < |replies| ==> ReadAll(receipt, start, end, s, replies[..k]).More?
    ensures var r := ReadAll(receipt, start, end, s, replies);
      && r.events == s.events + EventsOf(replies) && Correlated(receipt, start, end, r.events)
      && AllPages(receipt, start, end, replies, r.watermark)
      && (s.watermark.Some? ==> s.watermark.value == r.watermark)
      && (|replies| > 1 ==> replies[0].value.nextCursor.value > s.cursor)
    decreases |replies|
  {
    var p := replies[0].value;
    var next := ReadPage(receipt, start, end, s, p);
    PageKeepsCorrelated(receipt, start, end, s.events, p.events);
    if next.Done? {
      assert replies[..1] == [replies[0]] && ReadAll(receipt, start, end, s, replies[..1]) == next;
      assert |replies| == 1;
      assert EventsOf(replies) == p.events + [] by { assert replies[1..] == []; }
    } else {
      var rest := replies[1..];
      forall k | 0 <= k < |rest| ensures ReadAll(receipt, start, end, next.scan, rest[..k]).More? {
        assert replies[..k + 1][1..] == rest[..k] && replies[..k + 1][0] == replies[0];
        assert ReadAll(receipt, start, end, s, replies[..k + 1]).More?;
      }
      ScanIsComplete(receipt, start, end, next.scan, rest);
      assert s.events + p.events + EventsOf(rest) == s.events + EventsOf(replies);
    }
  }

  // ----- one round of the observation

  /** What a round has seen: the time since the window began, the status, and the log pages. */
  datatype Round = Round(elapsed: real, status: Reply<DeploymentStatus>, replies: seq<Reply<Page>>)

  datatype Verdict = Finish(outcome: Outcome, reason: Reason, checked: nat) | Continue(watermark: real, checked: nat)

  const FIRST := Continue(0.0, 0)

  function Least(a: real, b: real): real {
    if a <= b then a else b
  }

  function Distance(a: real, b: real): real {
    if a <= b then b - a else a - b
  }

  function ScanOf(inputs: Inputs, receipt: Receipt, epoch: real, r: Round): Progress {
    ReadAll(receipt, epoch, epoch + Least(r.elapsed, inputs.duration), START, r.replies)
  }

  predicate StatusIsReliable(receipt: Receipt, epoch: real, r: Round) {
    && r.status.Answer? && r.status.value.deploymentId == receipt.deploymentId
    && Distance(r.status.value.observedAt - epoch, r.elapsed) <= 2.0
  }

  predicate Complete(receipt: Receipt, events: seq<Event>, watermark: real, start: real, end: real) {
    watermark >= end && AllBeat(receipt.replicas, events, start, end)
  }

  function JudgeLog(inputs: Inputs, receipt: Receipt, epoch: real, before: Verdict, elapsed: real,
      events: seq<Event>, watermark: real): Verdict
    requires before.Continue?
  {
    if watermark < before.watermark then Finish(Inconclusive, NoEvidence, |events|)
    else if exists e :: e in events && e.level == ErrorLevel then Finish(Fail, ErrorSeen, |events|)
    else if exists e :: e in events && e.version != inputs.version then Finish(Fail, VersionChanged, |events|)
    else if elapsed >= inputs.duration
      && Complete(receipt, events, watermark, epoch, epoch + Least(elapsed, inputs.duration))
    then Finish(Pass, Verified, |events|)
    else if elapsed >= inputs.duration + inputs.grace then Finish(Inconclusive, CoverageNotProven, |events|)
    else Continue(watermark, |events|)
  }

  function Judge(inputs: Inputs, receipt: Receipt, epoch: real, before: Verdict, r: Round): Verdict
    requires before.Continue?
  {
    if !StatusIsReliable(receipt, epoch, r) then Finish(Inconclusive, NoEvidence, before.checked)
    else if !Ready(receipt, r.status.value.replicas) then Finish(Fail, Regressed, before.checked)
    else
      match ScanOf(inputs, receipt, epoch, r)
      case Done(events, watermark) => JudgeLog(inputs, receipt, epoch, before, r.elapsed, events, watermark)
      case _ => Finish(Inconclusive, NoEvidence, before.checked)
  }

  function JudgeAll(inputs: Inputs, receipt: Receipt, epoch: real, before: Verdict, rounds: seq<Round>): Verdict
    requires before.Continue?
    decreases |rounds|
  {
    if rounds == [] then before
    else
      var v := Judge(inputs, receipt, epoch, before, rounds[0]);
      if v.Finish? then v else JudgeAll(inputs, receipt, epoch, v, rounds[1..])
  }

  /** The pages of a round: no more than the budget, and none after the scan was decided. */
  ghost predicate ScannedInBudget(inputs: Inputs, receipt: Receipt, epoch: real, r: Round) {
    && |r.replies| <= PAGES
    && (ScanOf(inputs, receipt, epoch, r).More? && r.replies != [] ==> |r.replies| == PAGES)
    && forall k :: 0 <= k < |r.replies| ==> ScanOf(inputs, receipt, epoch, r.(replies := r.replies[..k])).More?
  }

  /** Successive rounds are a pause apart that is never longer than the time left, and a round
      is only followed by another within duration and grace. */
  ghost predicate Paced(inputs: Inputs, rounds: seq<Round>) {
    forall i :: 0 < i < |rounds| ==> MayFollow(inputs, rounds[i - 1], rounds[i].elapsed)
  }

  /** A round may be followed by one that begins at the given time. */
  predicate MayFollow(inputs: Inputs, a: Round, elapsed: real) {
    var left := inputs.duration + inputs.grace - a.elapsed;
    left > 0.0 && elapsed >= a.elapsed + Least(inputs.poll, left)
  }

  /** No round before the last has decided. */
  ghost predicate Undecided(inputs: Inputs, receipt: Receipt, epoch: real, before: Verdict, rounds: seq<Round>)
    requires before.Continue?
  {
    forall k :: 0 <= k < |rounds| ==> JudgeAll(inputs, receipt, epoch, before, rounds[..k]).Continue?
  }

  // ----- what a pass proves

  /** Nothing bad was seen in the round, and its log is known up to the watermark. */
  ghost predicate Clean(inputs: Inputs, receipt: Receipt, epoch: real, r: Round) {
    && StatusIsReliable(receipt, epoch, r) && Ready(receipt, r.status.value.replicas)
    && var scan := ScanOf(inputs, receipt, epoch, r); var end := epoch + Least(r.elapsed, inputs.duration);
    && scan.Done? && scan.events == EventsOf(r.replies) && Correlated(receipt, epoch, end, scan.events)
    && AllPages(receipt, epoch, end, r.replies, scan.watermark)
    && forall e :: e in scan.events ==> e.level != ErrorLevel && e.version == inputs.version
  }

  ghost predicate WatermarksGrow(inputs: Inputs, receipt: Receipt, epoch: real, before: real, rounds: seq<Round>)
    decreases |rounds|
  {
    rounds == [] || (
      var scan := ScanOf(inputs, receipt, epoch, rounds[0]);
      scan.Done? && scan.watermark >= before && WatermarksGrow(inputs, receipt, epoch, scan.watermark, rounds[1..]))
  }

  lemma UnfinishedIsClean(inputs: Inputs, receipt: Receipt, epoch: real, before: Verdict, r: Round)
    requires before.Continue? && ScannedInBudget(inputs, receipt, epoch, r)
    requires var v := Judge(inputs, receipt, epoch, before, r); v.Continue? || v.outcome == Pass
    ensures Clean(inputs, receipt, epoch, r) && ScanOf(inputs, receipt, epoch, r).watermark >= before.watermark
  {
    var end := epoch + Least(r.elapsed, inputs.duration);
    forall k | 0 <= k < |r.replies| ensures ReadAll(receipt, epoch, end, START, r.replies[..k]).More? {
      assert ScanOf(inputs, receipt, epoch, r.(replies := r.replies[..k])).More?;
    }
    ScanIsComplete(receipt, epoch, end, START, r.replies);
    assert [] + EventsOf(r.replies) == EventsOf(r.replies);
  }

  lemma {:induction false} EarlierRoundsAreClean(inputs: Inputs, receipt: Receipt, epoch: real, before: Verdict, rounds: seq<Round>)
    requires before.Continue? && Undecided(inputs, receipt, epoch, before, rounds)
    requires forall i :: 0 <= i < |rounds| ==> ScannedInBudget(inputs, receipt, epoch, rounds[i])
    requires var v := JudgeAll(inputs, receipt, epoch, before, rounds); v.Continue? || v.outcome == Pass
    ensures forall i :: 0 <= i < |rounds| ==> Clean(inputs, receipt, epoch, rounds[i])
    ensures WatermarksGrow(inputs, receipt, epoch, before.watermark, rounds)
    decreases |rounds|
  {
    if rounds != [] {
      var v, rest := Judge(inputs, receipt, epoch, before, rounds[0]), rounds[1..];
      UnfinishedIsClean(inputs, receipt, epoch, before, rounds[0]);
      DecidedIsLast(inputs, receipt, epoch, before, rounds);
      if v.Continue? {
        EarlierRoundsAreClean(inputs, receipt, epoch, v, rest);
      }
      forall i | 0 <= i < |rounds| ensures Clean(inputs, receipt, epoch, rounds[i]) {
        if i > 0 { assert rounds[i] == rest[i - 1]; }
      }
    }
  }

  lemma DecidedIsLast(inputs: Inputs, receipt: Receipt, epoch: real, before: Verdict, rounds: seq<Round>)
    requires before.Continue? && rounds != [] && Undecided(inputs, receipt, epoch, before, rounds)
    ensures var v := Judge(inputs, receipt, epoch, before, rounds[0]);
      && (v.Finish? ==> |rounds| == 1)
      && (v.Continue? ==> Undecided(inputs, receipt, epoch, v, rounds[1..]))
  {
    var v, rest := Judge(inputs, receipt, epoch, before, rounds[0]), rounds[1..];
    assert rounds[..1][1..] == [];
    assert JudgeAll(inputs, receipt, epoch, before, rounds[..1]) == v;
    if v.Continue? {
      forall k | 0 <= k < |rest| ensures JudgeAll(inputs, receipt, epoch, v, rest[..k]).Continue? {
        assert rounds[..k + 1][1..] == rest[..k] && rounds[..k + 1][0] == rounds[0];
        assert JudgeAll(inputs, receipt, epoch, before, rounds[..k + 1]).Continue?;
      }
    }
  }

  /** The verdict comes from the last round. */
  lemma {:induction false} LastRoundDecides(inputs: Inputs, receipt: Receipt, epoch: real, before: Verdict, rounds: seq<Round>)
    returns (earlier: Verdict)
    requires before.Continue? && rounds != [] && Undecided(inputs, receipt, epoch, before, rounds)
    ensures earlier.Continue?
    ensures JudgeAll(inputs, receipt, epoch, before, rounds) == Judge(inputs, receipt, epoch, earlier, rounds[|rounds| - 1])
    decreases |rounds|
  {
    DecidedIsLast(inputs, receipt, epoch, before, rounds);
    if |rounds| == 1 {
      earlier := before;
    } else {
      earlier := LastRoundDecides(inputs, receipt, epoch, Judge(inputs, receipt, epoch, before, rounds[0]), rounds[1..]);
    }
  }

  /** The whole window has passed and is known, and no replica was silent in it for too long. */
  ghost predicate WindowIsCovered(inputs: Inputs, receipt: Receipt, epoch: real, last: Round) {
    var scan, end := ScanOf(inputs, receipt, epoch, last), epoch + inputs.duration;
    && last.elapsed >= inputs.duration && scan.Done? && scan.watermark >= end
    && forall r :: r in receipt.replicas ==> BeatsWithin(scan.events, r, epoch, end) && Covered(scan.events, r, epoch, end)
  }

  lemma PassedLogIsComplete(inputs: Inputs, receipt: Receipt, epoch: real, before: Verdict, r: Round)
    requires before.Continue?
    requires var v := Judge(inputs, receipt, epoch, before, r); v.Finish? && v.outcome == Pass
    ensures r.elapsed >= inputs.duration && ScanOf(inputs, receipt, epoch, r).Done?
    ensures var scan := ScanOf(inputs, receipt, epoch, r);
      Complete(receipt, scan.events, scan.watermark, epoch, epoch + inputs.duration)
  {
  }

  lemma PassedRoundIsCovered(inputs: Inputs, receipt: Receipt, epoch: real, before: Verdict, r: Round)
    requires ValidInputs(inputs) && before.Continue? && ScannedInBudget(inputs, receipt, epoch, r)
    requires var v := Judge(inputs, receipt, epoch, before, r); v.Finish? && v.outcome == Pass
    ensures WindowIsCovered(inputs, receipt, epoch, r)
  {
    var events, end := ScanOf(inputs, receipt, epoch, r).events, epoch + inputs.duration;
    PassedLogIsComplete(inputs, receipt, epoch, before, r);
    assert InWindow(events, epoch, end) by { UnfinishedIsClean(inputs, receipt, epoch, before, r); }
    forall replica | replica in receipt.replicas
      ensures BeatsWithin(events, replica, epoch, end) && Covered(events, replica, epoch, end)
    {
      BeatsExactlyWhenCovered(events, replica, epoch, end);
    }
  }

  /** A pass says: the full duration has elapsed; in every round the deployment was ready and the
      whole log was read without a gap, an error or a foreign version; the watermark never fell
      and covers the end; and every replica has a heartbeat in every part of the window longer
      than the gap. */
  lemma PassIsProven(inputs: Inputs, receipt: Receipt, epoch: real, rounds: seq<Round>)
    requires ValidInputs(inputs) && rounds != [] && Undecided(inputs, receipt, epoch, FIRST, rounds)
    requires forall i :: 0 <= i < |rounds| ==> ScannedInBudget(inputs, receipt, epoch, rounds[i])
    requires var v := JudgeAll(inputs, receipt, epoch, FIRST, rounds); v.Finish? && v.outcome == Pass
    ensures forall i :: 0 <= i < |rounds| ==> Clean(inputs, receipt, epoch, rounds[i])
    ensures WatermarksGrow(inputs, receipt, epoch, 0.0, rounds)
    ensures WindowIsCovered(inputs, receipt, epoch, rounds[|rounds| - 1])
  {
    EarlierRoundsAreClean(inputs, receipt, epoch, FIRST, rounds);
    var earlier := LastRoundDecides(inputs, receipt, epoch, FIRST, rounds);
    PassedRoundIsCovered(inputs, receipt, epoch, earlier, rounds[|rounds| - 1]);
  }

  /** A failure is seen, not guessed: the deployment answered reliably and was not ready, or the
      complete log of the window so far has an error or a foreign version. */
  lemma FailIsWitnessed(inputs: Inputs, receipt: Receipt, epoch: real, rounds: seq<Round>)
    requires rounds != [] && Undecided(inputs, receipt, epoch, FIRST, rounds)
    requires var v := JudgeAll(inputs, receipt, epoch, FIRST, rounds); v.Finish? && v.outcome == Fail
    ensures var last := rounds[|rounds| - 1]; var scan := ScanOf(inputs, receipt, epoch, last);
      && StatusIsReliable(receipt, epoch, last)
      && match JudgeAll(inputs, receipt, epoch, FIRST, rounds).reason
      case Regressed => !Ready(receipt, last.status.value.replicas)
      case ErrorSeen => scan.Done? && exists e :: e in scan.events && e.level == ErrorLevel
      case VersionChanged => scan.Done? && exists e :: e in scan.events && e.version != inputs.version
      case _ => false
  {
    var earlier := LastRoundDecides(inputs, receipt, epoch, FIRST, rounds);
  }

  // ----- the rollout

  /** One look at the rollout: the status, and the three readings of the time since the start. */
  datatype Try = Try(status: Reply<DeploymentStatus>, first: real, second: real, third: real)

  datatype RolloutStep = Abort | TimedOut | Rolled(epoch: real) | Again

  function JudgeTry(inputs: Inputs, receipt: Receipt, t: Try): RolloutStep {
    if t.status.Unavailable? || t.status.value.deploymentId != receipt.deploymentId then Abort
    else if t.first > inputs.rolloutTimeout then TimedOut
    else if Ready(receipt, t.status.value.replicas) then Rolled(t.status.value.observedAt)
    else if t.second >= inputs.rolloutTimeout then TimedOut
    else Again
  }

  /** Like `Paced`: the pause is taken from a third reading of the clock. */
  ghost predicate TriesPaced(inputs: Inputs, tries: seq<Try>) {
    forall i :: 0 < i < |tries| ==>
      MayTryAgain(inputs, tries[i - 1], tries[i].first) && tries[i].first <= tries[i].second
  }

  /** A look may be followed by one that begins at the given time. */
  predicate MayTryAgain(inputs: Inputs, a: Try, elapsed: real) {
    var left := inputs.rolloutTimeout - a.third;
    a.second < inputs.rolloutTimeout && a.second <= a.third && left >= 0.0 && elapsed >= a.third + Least(inputs.poll, left)
  }

  /** The deployment is not ready, and the timeout passes between the reading that still allows
      another look and the one from which the pause before it is taken. */
  predicate Overshoots(inputs: Inputs, receipt: Receipt, t: Try) {
    JudgeTry(inputs, receipt, t) == Again && t.second < inputs.rolloutTimeout < t.third
  }

  // ----- how many rounds there can be

  lemma PauseAdds(n: nat, poll: real)
    ensures (n + 1) as real * poll == n as real * poll + poll
  {
  }

  /** A count of full pauses that fits into a time is no more than the quotient. */
  lemma CountFits(n: nat, poll: real, total: real)
    requires poll > 0.0 && n as real * poll < total
    ensures n <= (total / poll).Floor
  {
    assert n as real < total / poll by {
      assert (total / poll) * poll == total;
      if n as real >= total / poll { Larger(n as real, total / poll, poll); }
    }
  }

  lemma Larger(a: real, b: real, c: real)
    requires a >= b && c > 0.0
    ensures a * c >= b * c
  {
  }

  /** Each round begins after as many full pauses as rounds before it, or after the time is over. */
  lemma {:induction false} PacedTakesTime(inputs: Inputs, rounds: seq<Round>, i: nat)
    requires ValidInputs(inputs) && Paced(inputs, rounds) && i < |rounds| && rounds[0].elapsed >= 0.0
    ensures rounds[i].elapsed >= i as real * inputs.poll || rounds[i].elapsed >= inputs.duration + inputs.grace
  {
    if i > 0 {
      PacedTakesTime(inputs, rounds, i - 1);
      assert MayFollow(inputs, rounds[i - 1], rounds[i].elapsed);
      PauseAdds(i - 1, inputs.poll);
    }
  }

  /** How many rounds there can be at most. */
  function MostRounds(total: real, poll: real): int
    requires poll > 0.0
  {
    (total / poll).Floor + 2
  }

  lemma RoundInTime(inputs: Inputs, rounds: seq<Round>, i: nat)
    requires ValidInputs(inputs) && Paced(inputs, rounds) && i < |rounds| && rounds[0].elapsed >= 0.0
    requires rounds[i].elapsed < inputs.duration + inputs.grace
    ensures i + 1 < MostRounds(inputs.duration + inputs.grace, inputs.poll)
  {
    PacedTakesTime(inputs, rounds, i);
    CountFits(i, inputs.poll, inputs.duration + inputs.grace);
  }

  /** At most ceil((duration + grace) / poll) + 1 rounds. */
  lemma RoundsAreBounded(inputs: Inputs, rounds: seq<Round>)
    requires ValidInputs(inputs) && Paced(inputs, rounds) && |rounds| >= 2 && rounds[0].elapsed >= 0.0
    ensures (|rounds| - 2) as real * inputs.poll < inputs.duration + inputs.grace
  {
    var n := |rounds|;
    PacedTakesTime(inputs, rounds, n - 2);
    assert MayFollow(inputs, rounds[n - 2], rounds[n - 1].elapsed);
  }

  lemma {:induction false} TriesTakeTime(inputs: Inputs, tries: seq<Try>, i: nat)
    requires ValidInputs(inputs) && TriesPaced(inputs, tries) && i < |tries| && 0.0 <= tries[0].first <= tries[0].second
    ensures tries[i].second >= i as real * inputs.poll || tries[i].second >= inputs.rolloutTimeout
  {
    if i > 0 {
      TriesTakeTime(inputs, tries, i - 1);
      assert MayTryAgain(inputs, tries[i - 1], tries[i].first);
      PauseAdds(i - 1, inputs.poll);
    }
  }

  /** At most ceil(timeout / poll) + 1 looks at the rollout. */
  lemma TriesAreBounded(inputs: Inputs, tries: seq<Try>)
    requires ValidInputs(inputs) && TriesPaced(inputs, tries) && |tries| >= 2 && 0.0 <= tries[0].first <= tries[0].second
    ensures (|tries| - 2) as real * inputs.poll < inputs.rolloutTimeout
  {
    var n := |tries|;
    TriesTakeTime(inputs, tries, n - 2);
    assert MayTryAgain(inputs, tries[n - 2], tries[n - 1].first);
  }

  // ----- one reply more

  datatype Request = ToDeploy(service: string, version: string, requestKey: string) | ToStatus(deploymentId: string)
    | ToRead(query: Query)

  lemma {:induction false} ReadOneMore(receipt: Receipt, start: real, end: real, s: Scan, scan: Scan, replies: seq<Reply<Page>>, reply: Reply<Page>)
    requires ReadAll(receipt, start, end, s, replies) == More(scan)
    ensures ReadAll(receipt, start, end, s, replies + [reply])
      == if reply.Unavailable? then Rejected else ReadPage(receipt, start, end, scan, reply.value)
    decreases |replies|
  {
    var all := replies + [reply];
    if replies == [] {
      assert all == [reply] && all[1..] == [];
    } else {
      assert all[0] == replies[0] && all[1..] == replies[1..] + [reply];
      var next := ReadPage(receipt, start, end, s, replies[0].value);
      ReadOneMore(receipt, start, end, next.scan, scan, replies[1..], reply);
    }
  }

  /** The requests of a scan: each page is asked for by the cursor of the one before. */
  ghost function Asked(receipt: Receipt, start: real, end: real, replies: seq<Reply<Page>>): seq<Request>
    decreases |replies|
  {
    if replies == [] then []
    else
      var earlier := ReadAll(receipt, start, end, START, replies[..|replies| - 1]);
      Asked(receipt, start, end, replies[..|replies| - 1])
      + [ToRead(Query(receipt.deploymentId, start, end, if earlier.More? then earlier.scan.cursor else 0))]
  }

  lemma ReadOn(receipt: Receipt, start: real, end: real, scan: Scan, replies: seq<Reply<Page>>, reply: Reply<Page>)
    returns (all: seq<Reply<Page>>)
    requires ReadAll(receipt, start, end, START, replies) == More(scan)
    requires forall k :: 0 <= k < |replies| ==> ReadAll(receipt, start, end, START, replies[..k]).More?
    ensures all == replies + [reply]
    ensures forall k :: 0 <= k < |all| ==> ReadAll(receipt, start, end, START, all[..k]).More?
    ensures ReadAll(receipt, start, end, START, all)
      == if reply.Unavailable? then Rejected else ReadPage(receipt, start, end, scan, reply.value)
    ensures Asked(receipt, start, end, all)
      == Asked(receipt, start, end, replies) + [ToRead(Query(receipt.deploymentId, start, end, scan.cursor))]
  {
    all := replies + [reply];
    ReadOneMore(receipt, start, end, START, scan, replies, reply);
    assert all[..|replies|] == replies;
    forall k | 0 <= k < |all| ensures ReadAll(receipt, start, end, START, all[..k]).More? {
      assert all[..k] == replies[..k];
    }
  }

  lemma {:induction false} JudgeOneMore(inputs: Inputs, receipt: Receipt, epoch: real, before: Verdict, rounds: seq<Round>, r: Round)
    requires before.Continue? && Undecided(inputs, receipt, epoch, before, rounds)
    requires JudgeAll(inputs, receipt, epoch, before, rounds).Continue?
    ensures JudgeAll(inputs, receipt, epoch, before, rounds + [r])
      == Judge(inputs, receipt, epoch, JudgeAll(inputs, receipt, epoch, before, rounds), r)
    ensures Undecided(inputs, receipt, epoch, before, rounds + [r])
    decreases |rounds|
  {
    var all := rounds + [r];
    if rounds == [] {
      assert all == [r] && all[1..] == [];
    } else {
      assert all[0] == rounds[0] && all[1..] == rounds[1..] + [r];
      DecidedIsLast(inputs, receipt, epoch, before, rounds);
      JudgeOneMore(inputs, receipt, epoch, Judge(inputs, receipt, epoch, before, rounds[0]), rounds[1..], r);
    }
    forall k | 0 <= k < |all| ensures JudgeAll(inputs, receipt, epoch, before, all[..k]).Continue? {
      assert all[..k] == if k < |rounds| then rounds[..k] else rounds;
    }
  }

  lemma PacedOneMore(inputs: Inputs, rounds: seq<Round>, r: Round)
    requires Paced(inputs, rounds) && (rounds != [] ==> MayFollow(inputs, rounds[|rounds| - 1], r.elapsed))
    ensures Paced(inputs, rounds + [r])
  {
    var all := rounds + [r];
    forall i | 0 < i < |all| ensures MayFollow(inputs, all[i - 1], all[i].elapsed) {
      if i < |rounds| { assert MayFollow(inputs, rounds[i - 1], rounds[i].elapsed); }
    }
  }

  lemma ContinuedInTime(inputs: Inputs, receipt: Receipt, epoch: real, before: Verdict, r: Round)
    requires before.Continue? && Judge(inputs, receipt, epoch, before, r).Continue?
    ensures r.elapsed < inputs.duration + inputs.grace
  {
  }

  ghost predicate AllScanned(inputs: Inputs, receipt: Receipt, epoch: real, rounds: seq<Round>) {
    forall i :: 0 <= i < |rounds| ==> ScannedInBudget(inputs, receipt, epoch, rounds[i])
  }

  /** The rounds so far have not decided. */
  ghost predicate Observing(inputs: Inputs, receipt: Receipt, epoch: real, rounds: seq<Round>, v: Verdict) {
    && v.Continue? && v == JudgeAll(inputs, receipt, epoch, FIRST, rounds)
    && Undecided(inputs, receipt, epoch, FIRST, rounds) && AllScanned(inputs, receipt, epoch, rounds)
    && Paced(inputs, rounds) && (rounds != [] ==> rounds[0].elapsed >= 0.0)
  }

  /** The rounds have decided, with the last. */
  ghost predicate Observed(inputs: Inputs, receipt: Receipt, epoch: real, rounds: seq<Round>, v: Verdict) {
    && v.Finish? && rounds != [] && v == JudgeAll(inputs, receipt, epoch, FIRST, rounds)
    && Undecided(inputs, receipt, epoch, FIRST, rounds) && AllScanned(inputs, receipt, epoch, rounds)
    && Paced(inputs, rounds) && rounds[0].elapsed >= 0.0
  }

  lemma ObserveOneMore(inputs: Inputs, receipt: Receipt, epoch: real, rounds: seq<Round>, v: Verdict, r: Round)
    requires ValidInputs(inputs) && Observing(inputs, receipt, epoch, rounds, v) && r.elapsed >= 0.0
    requires ScannedInBudget(inputs, receipt, epoch, r)
    requires rounds != [] ==> MayFollow(inputs, rounds[|rounds| - 1], r.elapsed)
    ensures var v' := Judge(inputs, receipt, epoch, v, r); var all := rounds + [r];
      && (v'.Finish? ==> Observed(inputs, receipt, epoch, all, v'))
      && (v'.Continue? ==>
        && Observing(inputs, receipt, epoch, all, v') && r.elapsed < inputs.duration + inputs.grace
        && |all| < MostRounds(inputs.duration + inputs.grace, inputs.poll))
  {
    JudgeOneMore(inputs, receipt, epoch, FIRST, rounds, r);
    PacedOneMore(inputs, rounds, r);
    var v' := Judge(inputs, receipt, epoch, v, r);
    if v'.Continue? {
      ContinuedInTime(inputs, receipt, epoch, v, r);
      var all := rounds + [r];
      assert all[|rounds|] == r && all[0].elapsed >= 0.0;
      RoundInTime(inputs, all, |rounds|);
    }
  }

  ghost predicate OnlyLastStops(inputs: Inputs, receipt: Receipt, tries: seq<Try>) {
    tries != [] && forall i :: 0 <= i < |tries| - 1 ==> JudgeTry(inputs, receipt, tries[i]) == Again
  }

  /** The looks so far have not decided. */
  ghost predicate Trying(inputs: Inputs, receipt: Receipt, tries: seq<Try>) {
    && (forall i :: 0 <= i < |tries| ==> JudgeTry(inputs, receipt, tries[i]) == Again)
    && TriesPaced(inputs, tries) && (tries != [] ==> 0.0 <= tries[0].first <= tries[0].second)
  }

  ghost predicate Tried(inputs: Inputs, receipt: Receipt, tries: seq<Try>) {
    OnlyLastStops(inputs, receipt, tries) && TriesPaced(inputs, tries) && 0.0 <= tries[0].first <= tries[0].second
  }

  lemma TryOneMore(inputs: Inputs, receipt: Receipt, tries: seq<Try>, t: Try)
    requires ValidInputs(inputs) && Trying(inputs, receipt, tries) && 0.0 <= t.first <= t.second
    requires tries != [] ==> MayTryAgain(inputs, tries[|tries| - 1], t.first)
    ensures Tried(inputs, receipt, tries + [t])
    ensures JudgeTry(inputs, receipt, t) == Again ==>
      Trying(inputs, receipt, tries + [t]) && |tries + [t]| < MostRounds(inputs.rolloutTimeout, inputs.poll)
  {
    var all := tries + [t];
    forall i | 0 < i < |all|
      ensures MayTryAgain(inputs, all[i - 1], all[i].first) && all[i].first <= all[i].second
    {
      if i < |tries| { assert MayTryAgain(inputs, tries[i - 1], tries[i].first); }
    }
    if JudgeTry(inputs, receipt, t) == Again {
      assert all[|tries|] == t;
      TriesTakeTime(inputs, all, |tries|);
      CountFits(|tries|, inputs.poll, inputs.rolloutTimeout);
    }
  }
}
