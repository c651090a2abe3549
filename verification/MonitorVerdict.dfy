/** When the deployment monitor says what (scenarios/deploy_monitor/workflow/monitoring/service.py),
    in terms of what was true of the deployment and of its log. */
module MonitorVerdict {
  import opened Prelude
  import opened Heartbeats
  import opened Monitoring

  // ----- the log of a round

  function End(inputs: Inputs, epoch: real, r: Round): real {
    epoch + Least(r.elapsed, inputs.duration)
  }

  /** How far the log of a round says it is complete. */
  function Through(r: Round): real {
    if r.replies != [] && r.replies[0].Answer? then r.replies[0].value.completeThrough else 0.0
  }

  /** The replies are the whole log of the interval: all its pages, in the order of their cursors,
      with correlated events in the order of their sequence numbers. */
  ghost predicate WholeLog(receipt: Receipt, start: real, end: real, replies: seq<Reply<Page>>, through: real) {
    && AllPages(receipt, start, end, replies, through)
    && (|replies| > 1 ==> replies[0].value.nextCursor.value > 0)
    && Correlated(receipt, start, end, EventsOf(replies))
  }

  ghost predicate LogKnown(inputs: Inputs, receipt: Receipt, epoch: real, r: Round) {
    WholeLog(receipt, epoch, End(inputs, epoch, r), r.replies, Through(r))
  }

  /** Events that fit one after the other are all taken. */
  lemma {:induction false} FittingPage(receipt: Receipt, start: real, end: real, events: seq<Event>, page: seq<Event>)
    requires Correlated(receipt, start, end, events + page)
    ensures WithPage(receipt, start, end, events, page) == Some(events + page)
    decreases |page|
  {
    if page == [] {
      assert events + page == events;
    } else {
      var all := events + page;
      assert all[|events|] == page[0] && page[0] in all;
      if events != [] { assert all[|events| - 1] == events[|events| - 1]; }
      assert events + [page[0]] + page[1..] == all;
      FittingPage(receipt, start, end, events + [page[0]], page[1..]);
    }
  }

  lemma CorrelatedFront(receipt: Receipt, start: real, end: real, a: seq<Event>, b: seq<Event>)
    requires Correlated(receipt, start, end, a + b)
    ensures Correlated(receipt, start, end, a)
  {
    assert forall i :: 0 <= i < |a| ==> (a + b)[i] == a[i];
    assert forall e :: e in a ==> e in a + b;
  }

  lemma RestOfPages(receipt: Receipt, start: real, end: real, replies: seq<Reply<Page>>, through: real)
    requires AllPages(receipt, start, end, replies, through) && |replies| > 1
    ensures AllPages(receipt, start, end, replies[1..], through)
    ensures |replies| > 2 ==> replies[1].value.nextCursor.value > replies[0].value.nextCursor.value
  {
    var rest := replies[1..];
    forall i | 0 <= i < |rest|
      ensures rest[i].Answer? && (rest[i].value.nextCursor.None? <==> i == |rest| - 1)
    {
      assert rest[i] == replies[i + 1];
    }
  }

  /** Replies that are the whole log are read to the end. */
  lemma {:induction false} WholeLogIsRead(receipt: Receipt, start: real, end: real, s: Scan, replies: seq<Reply<Page>>, through: real)
    requires AllPages(receipt, start, end, replies, through) && (s.watermark.Some? ==> s.watermark.value == through)
    requires |replies| > 1 ==> replies[0].value.nextCursor.value > s.cursor
    requires Correlated(receipt, start, end, s.events + EventsOf(replies))
    ensures ReadAll(receipt, start, end, s, replies) == Done(s.events + EventsOf(replies), through)
    decreases |replies|
  {
    var p, rest := replies[0].value, replies[1..];
    assert s.events + EventsOf(replies) == s.events + p.events + EventsOf(rest);
    CorrelatedFront(receipt, start, end, s.events + p.events, EventsOf(rest));
    FittingPage(receipt, start, end, s.events, p.events);
    if |replies| == 1 {
      assert rest == [] && s.events + EventsOf(replies) == s.events + p.events;
    } else {
      RestOfPages(receipt, start, end, replies, through);
      WholeLogIsRead(receipt, start, end, Scan(p.nextCursor.value, s.events + p.events, Some(p.completeThrough)), rest, through);
    }
  }

  /** A scan succeeds exactly when its replies are the whole log, and then it has all its events. */
  lemma ScannedExactlyWhen(inputs: Inputs, receipt: Receipt, epoch: real, r: Round)
    requires ScannedInBudget(inputs, receipt, epoch, r)
    ensures ScanOf(inputs, receipt, epoch, r).Done? <==> LogKnown(inputs, receipt, epoch, r)
    ensures LogKnown(inputs, receipt, epoch, r) ==>
              ScanOf(inputs, receipt, epoch, r) == Done(EventsOf(r.replies), Through(r))
  {
    var end := End(inputs, epoch, r);
    assert [] + EventsOf(r.replies) == EventsOf(r.replies);
    if LogKnown(inputs, receipt, epoch, r) {
      WholeLogIsRead(receipt, epoch, end, START, r.replies, Through(r));
    }
    if ScanOf(inputs, receipt, epoch, r).Done? {
      forall k | 0 <= k < |r.replies| ensures ReadAll(receipt, epoch, end, START, r.replies[..k]).More? {
        assert ScanOf(inputs, receipt, epoch, r.(replies := r.replies[..k])).More?;
      }
      ScanIsComplete(receipt, epoch, end, START, r.replies);
    }
  }

  // ----- the verdict of a round

  /** A round whose evidence can be used: a reliable status of a ready deployment, and the whole
      log, complete at least as far as before. */
  ghost predicate Usable(inputs: Inputs, receipt: Receipt, epoch: real, before: real, r: Round) {
    && StatusIsReliable(receipt, epoch, r) && Ready(receipt, r.status.value.replicas)
    && LogKnown(inputs, receipt, epoch, r) && Through(r) >= before
  }

  ghost predicate HasError(r: Round) {
    exists e :: e in EventsOf(r.replies) && e.level == ErrorLevel
  }

  ghost predicate HasForeign(inputs: Inputs, r: Round) {
    exists e :: e in EventsOf(r.replies) && e.version != inputs.version
  }

  /** The window is over, its log is complete, and no replica was silent in it for too long. */
  ghost predicate WindowShown(inputs: Inputs, receipt: Receipt, epoch: real, r: Round) {
    var end := epoch + inputs.duration;
    && r.elapsed >= inputs.duration && Through(r) >= end
    && forall name :: name in receipt.replicas ==>
         BeatsWithin(EventsOf(r.replies), name, epoch, end) && Covered(EventsOf(r.replies), name, epoch, end)
  }

  /** Nothing bad has been seen, and nothing has been proven yet. */
  ghost predicate Spotless(inputs: Inputs, receipt: Receipt, epoch: real, before: real, r: Round) {
    Usable(inputs, receipt, epoch, before, r) && !HasError(r) && !HasForeign(inputs, r)
  }

  /** The round ends the observation for this reason. */
  ghost predicate Ends(inputs: Inputs, receipt: Receipt, epoch: real, before: real, r: Round, reason: Reason) {
    match reason
    case NoEvidence =>
      || !StatusIsReliable(receipt, epoch, r)
      || (Ready(receipt, r.status.value.replicas) && !Usable(inputs, receipt, epoch, before, r))
    case Regressed => StatusIsReliable(receipt, epoch, r) && !Ready(receipt, r.status.value.replicas)
    case ErrorSeen => Usable(inputs, receipt, epoch, before, r) && HasError(r)
    case VersionChanged => Usable(inputs, receipt, epoch, before, r) && !HasError(r) && HasForeign(inputs, r)
    case Verified => Spotless(inputs, receipt, epoch, before, r) && WindowShown(inputs, receipt, epoch, r)
    case CoverageNotProven =>
      && Spotless(inputs, receipt, epoch, before, r) && !WindowShown(inputs, receipt, epoch, r)
      && r.elapsed >= inputs.duration + inputs.grace
    case RolloutTimeout => false
  }

  /** The round leaves the observation open. */
  ghost predicate LeavesOpen(inputs: Inputs, receipt: Receipt, epoch: real, before: real, r: Round) {
    && Spotless(inputs, receipt, epoch, before, r) && !WindowShown(inputs, receipt, epoch, r)
    && r.elapsed < inputs.duration + inputs.grace
  }

  function OutcomeOf(reason: Reason): Outcome {
    match reason
    case Verified => Pass
    case NoEvidence => Inconclusive
    case CoverageNotProven => Inconclusive
    case _ => Fail
  }

  /** The log of the round counts as checked. */
  ghost predicate IsChecked(inputs: Inputs, receipt: Receipt, epoch: real, r: Round) {
    StatusIsReliable(receipt, epoch, r) && Ready(receipt, r.status.value.replicas) && LogKnown(inputs, receipt, epoch, r)
  }

  lemma CompleteExactlyWhen(inputs: Inputs, receipt: Receipt, epoch: real, r: Round)
    requires ValidInputs(inputs) && LogKnown(inputs, receipt, epoch, r) && r.elapsed >= inputs.duration
    ensures Complete(receipt, EventsOf(r.replies), Through(r), epoch, End(inputs, epoch, r)) <==>
              WindowShown(inputs, receipt, epoch, r)
  {
    var events, end := EventsOf(r.replies), epoch + inputs.duration;
    assert End(inputs, epoch, r) == end && InWindow(events, epoch, end);
    forall name
      ensures ReplicaBeats(events, name, epoch, end) <==>
                BeatsWithin(events, name, epoch, end) && Covered(events, name, epoch, end)
    {
      BeatsExactlyWhenCovered(events, name, epoch, end);
    }
  }

  /** The verdict on a log that is known to less than before, or has an error or a foreign version. */
  lemma SpottedLogJudged(inputs: Inputs, receipt: Receipt, epoch: real, before: Verdict, r: Round)
    requires before.Continue? && IsChecked(inputs, receipt, epoch, r)
    requires Through(r) < before.watermark || HasError(r) || HasForeign(inputs, r)
    ensures var v := JudgeLog(inputs, receipt, epoch, before, r.elapsed, EventsOf(r.replies), Through(r));
      && v.Finish? && Ends(inputs, receipt, epoch, before.watermark, r, v.reason) && v.outcome == OutcomeOf(v.reason)
      && v.checked == |EventsOf(r.replies)| && !Spotless(inputs, receipt, epoch, before.watermark, r)
  {
  }

  /** The verdict on a spotless one. */
  lemma SpotlessLogJudged(inputs: Inputs, receipt: Receipt, epoch: real, before: Verdict, r: Round)
    requires ValidInputs(inputs) && before.Continue? && Spotless(inputs, receipt, epoch, before.watermark, r)
    ensures var v := JudgeLog(inputs, receipt, epoch, before, r.elapsed, EventsOf(r.replies), Through(r));
      && v.checked == |EventsOf(r.replies)|
      && if WindowShown(inputs, receipt, epoch, r) then v.Finish? && v.reason == Verified && v.outcome == Pass
         else if r.elapsed >= inputs.duration + inputs.grace then
           v.Finish? && v.reason == CoverageNotProven && v.outcome == Inconclusive
         else v.Continue? && v.watermark == Through(r)
  {
    if r.elapsed >= inputs.duration { CompleteExactlyWhen(inputs, receipt, epoch, r); }
  }

  /** A round ends in one way only, or leaves the observation open. */
  lemma EndsInOneWay(inputs: Inputs, receipt: Receipt, epoch: real, before: real, r: Round, a: Reason, b: Reason)
    requires Ends(inputs, receipt, epoch, before, r, a)
    ensures !LeavesOpen(inputs, receipt, epoch, before, r)
    ensures Ends(inputs, receipt, epoch, before, r, b) ==> a == b
  {
  }

  lemma RoundJudged(inputs: Inputs, receipt: Receipt, epoch: real, before: Verdict, r: Round)
    requires ValidInputs(inputs) && before.Continue? && ScannedInBudget(inputs, receipt, epoch, r)
    ensures var v := Judge(inputs, receipt, epoch, before, r);
      && (v.Continue? <==> LeavesOpen(inputs, receipt, epoch, before.watermark, r))
      && (v.Continue? ==> v.watermark == Through(r))
      && (v.Finish? ==> Ends(inputs, receipt, epoch, before.watermark, r, v.reason) && v.outcome == OutcomeOf(v.reason))
      && v.checked == if IsChecked(inputs, receipt, epoch, r) then |EventsOf(r.replies)| else before.checked
  {
    ScannedExactlyWhen(inputs, receipt, epoch, r);
    if IsChecked(inputs, receipt, epoch, r) {
      if Spotless(inputs, receipt, epoch, before.watermark, r) {
        SpotlessLogJudged(inputs, receipt, epoch, before, r);
      } else {
        SpottedLogJudged(inputs, receipt, epoch, before, r);
      }
    }
  }

  // ----- the verdict of an observation

  /** How far the log was known before round `i`. */
  function KnownBefore(before: real, rounds: seq<Round>, i: nat): real
    requires i < |rounds|
  {
    if i == 0 then before else Through(rounds[i - 1])
  }

  ghost predicate StaysOpen(inputs: Inputs, receipt: Receipt, epoch: real, before: real, rounds: seq<Round>) {
    forall i: nat :: i < |rounds| - 1 ==> LeavesOpen(inputs, receipt, epoch, KnownBefore(before, rounds, i), rounds[i])
  }

  /** Every round but the last leaves the observation open, and the last ends it so. */
  ghost predicate DecidedAs(inputs: Inputs, receipt: Receipt, epoch: real, before: real, rounds: seq<Round>, reason: Reason) {
    && rounds != []
    && StaysOpen(inputs, receipt, epoch, before, rounds)
    && Ends(inputs, receipt, epoch, KnownBefore(before, rounds, |rounds| - 1), rounds[|rounds| - 1], reason)
  }

  /** How many events were checked: those of the last log that was read as a whole. */
  ghost function CheckedIn(inputs: Inputs, receipt: Receipt, epoch: real, checked: nat, rounds: seq<Round>): nat
    requires rounds != []
  {
    var last := |rounds| - 1;
    if IsChecked(inputs, receipt, epoch, rounds[last]) then |EventsOf(rounds[last].replies)|
    else if last == 0 then checked else |EventsOf(rounds[last - 1].replies)|
  }

  lemma KnownLater(before: real, rounds: seq<Round>, i: nat)
    requires i + 1 < |rounds|
    ensures rounds[1..][i] == rounds[i + 1]
    ensures KnownBefore(Through(rounds[0]), rounds[1..], i) == KnownBefore(before, rounds, i + 1)
  {
  }

  lemma OpenLater(inputs: Inputs, receipt: Receipt, epoch: real, before: real, rounds: seq<Round>)
    requires |rounds| > 1 && StaysOpen(inputs, receipt, epoch, before, rounds)
    ensures StaysOpen(inputs, receipt, epoch, Through(rounds[0]), rounds[1..])
  {
    var rest := rounds[1..];
    forall i: nat | i < |rest| - 1
      ensures LeavesOpen(inputs, receipt, epoch, KnownBefore(Through(rounds[0]), rest, i), rest[i])
    {
      KnownLater(before, rounds, i);
      assert LeavesOpen(inputs, receipt, epoch, KnownBefore(before, rounds, i + 1), rounds[i + 1]);
    }
  }

  lemma DecidedLater(inputs: Inputs, receipt: Receipt, epoch: real, before: real, rounds: seq<Round>, reason: Reason)
    requires |rounds| > 1 && DecidedAs(inputs, receipt, epoch, before, rounds, reason)
    ensures LeavesOpen(inputs, receipt, epoch, before, rounds[0])
    ensures DecidedAs(inputs, receipt, epoch, Through(rounds[0]), rounds[1..], reason)
  {
    assert LeavesOpen(inputs, receipt, epoch, KnownBefore(before, rounds, 0), rounds[0]);
    OpenLater(inputs, receipt, epoch, before, rounds);
    KnownLater(before, rounds, |rounds| - 2);
  }

  lemma DecidedEarlier(inputs: Inputs, receipt: Receipt, epoch: real, before: real, rounds: seq<Round>, reason: Reason)
    requires |rounds| > 1 && LeavesOpen(inputs, receipt, epoch, before, rounds[0])
    requires DecidedAs(inputs, receipt, epoch, Through(rounds[0]), rounds[1..], reason)
    ensures DecidedAs(inputs, receipt, epoch, before, rounds, reason)
  {
    var rest := rounds[1..];
    forall i: nat | i < |rounds| - 1
      ensures LeavesOpen(inputs, receipt, epoch, KnownBefore(before, rounds, i), rounds[i])
    {
      if i > 0 {
        KnownLater(before, rounds, i - 1);
        assert LeavesOpen(inputs, receipt, epoch, KnownBefore(Through(rounds[0]), rest, i - 1), rest[i - 1]);
      }
    }
    KnownLater(before, rounds, |rest| - 1);
  }

  /** The monitor ends an observation for a reason exactly when every round before the last left
      it open and the last one ends it so: it passes exactly when all rounds are spotless, the
      known part of the log never shrinks, and the last round is the first that shows the whole
      window. */
  lemma ObservedExactlyWhen(inputs: Inputs, receipt: Receipt, epoch: real, rounds: seq<Round>, reason: Reason)
    requires ValidInputs(inputs) && rounds != [] && AllScanned(inputs, receipt, epoch, rounds)
    ensures var v := JudgeAll(inputs, receipt, epoch, FIRST, rounds);
      && (Undecided(inputs, receipt, epoch, FIRST, rounds) && v.Finish? && v.reason == reason
          <==> DecidedAs(inputs, receipt, epoch, 0.0, rounds, reason))
      && (DecidedAs(inputs, receipt, epoch, 0.0, rounds, reason) ==>
            v.outcome == OutcomeOf(reason) && v.checked == CheckedIn(inputs, receipt, epoch, 0, rounds))
  {
    DecidedIsUndecided(inputs, receipt, epoch, FIRST, rounds, reason);
    if Undecided(inputs, receipt, epoch, FIRST, rounds) {
      RoundsDecide(inputs, receipt, epoch, FIRST, rounds);
    }
  }

  lemma LaterScanned(inputs: Inputs, receipt: Receipt, epoch: real, rounds: seq<Round>)
    requires AllScanned(inputs, receipt, epoch, rounds) && rounds != []
    ensures AllScanned(inputs, receipt, epoch, rounds[1..])
  {
    var rest := rounds[1..];
    forall i | 0 <= i < |rest| ensures ScannedInBudget(inputs, receipt, epoch, rest[i]) { assert rest[i] == rounds[i + 1]; }
  }

  /** No round before the last has decided then. */
  lemma {:induction false} DecidedIsUndecided(inputs: Inputs, receipt: Receipt, epoch: real, before: Verdict, rounds: seq<Round>,
      reason: Reason)
    requires ValidInputs(inputs) && before.Continue? && AllScanned(inputs, receipt, epoch, rounds)
    ensures DecidedAs(inputs, receipt, epoch, before.watermark, rounds, reason) ==>
              Undecided(inputs, receipt, epoch, before, rounds)
    decreases |rounds|
  {
    if |rounds| > 1 && DecidedAs(inputs, receipt, epoch, before.watermark, rounds, reason) {
      var v, rest := Judge(inputs, receipt, epoch, before, rounds[0]), rounds[1..];
      RoundJudged(inputs, receipt, epoch, before, rounds[0]);
      DecidedLater(inputs, receipt, epoch, before.watermark, rounds, reason);
      LaterScanned(inputs, receipt, epoch, rounds);
      DecidedIsUndecided(inputs, receipt, epoch, v, rest, reason);
      forall k | 0 <= k < |rounds| ensures JudgeAll(inputs, receipt, epoch, before, rounds[..k]).Continue? {
        if k > 0 {
          assert rounds[..k][1..] == rest[..k - 1] && rounds[..k][0] == rounds[0];
          assert JudgeAll(inputs, receipt, epoch, v, rest[..k - 1]).Continue?;
        }
      }
    }
  }

  /** The verdict is what the rounds are decided as, and nothing else. */
  ghost predicate RightVerdict(inputs: Inputs, receipt: Receipt, epoch: real, known: real, checked: nat, rounds: seq<Round>,
      v: Verdict)
    requires rounds != []
  {
    && (v.Finish? ==>
          && DecidedAs(inputs, receipt, epoch, known, rounds, v.reason)
          && v.outcome == OutcomeOf(v.reason) && v.checked == CheckedIn(inputs, receipt, epoch, checked, rounds))
    && forall reason :: DecidedAs(inputs, receipt, epoch, known, rounds, reason) ==> v.Finish? && v.reason == reason
  }

  lemma RightLater(inputs: Inputs, receipt: Receipt, epoch: real, known: real, checked: nat, rounds: seq<Round>, v: Verdict)
    requires |rounds| > 1 && LeavesOpen(inputs, receipt, epoch, known, rounds[0])
    requires RightVerdict(inputs, receipt, epoch, Through(rounds[0]), |EventsOf(rounds[0].replies)|, rounds[1..], v)
    ensures RightVerdict(inputs, receipt, epoch, known, checked, rounds, v)
  {
    forall reason | DecidedAs(inputs, receipt, epoch, known, rounds, reason)
      ensures DecidedAs(inputs, receipt, epoch, Through(rounds[0]), rounds[1..], reason)
    {
      DecidedLater(inputs, receipt, epoch, known, rounds, reason);
    }
    if v.Finish? { DecidedEarlier(inputs, receipt, epoch, known, rounds, v.reason); }
    CheckedLater(inputs, receipt, epoch, checked, rounds);
  }

  lemma CheckedLater(inputs: Inputs, receipt: Receipt, epoch: real, checked: nat, rounds: seq<Round>)
    requires |rounds| > 1
    ensures CheckedIn(inputs, receipt, epoch, checked, rounds)
      == CheckedIn(inputs, receipt, epoch, |EventsOf(rounds[0].replies)|, rounds[1..])
  {
    var last := |rounds| - 1;
    assert rounds[1..][last - 1] == rounds[last] && (last > 1 ==> rounds[1..][last - 2] == rounds[last - 1]);
  }

  lemma RightFirst(inputs: Inputs, receipt: Receipt, epoch: real, before: Verdict, rounds: seq<Round>)
    requires ValidInputs(inputs) && before.Continue? && |rounds| == 1 && ScannedInBudget(inputs, receipt, epoch, rounds[0])
    ensures RightVerdict(inputs, receipt, epoch, before.watermark, before.checked, rounds,
                         Judge(inputs, receipt, epoch, before, rounds[0]))
  {
    var v := Judge(inputs, receipt, epoch, before, rounds[0]);
    RoundJudged(inputs, receipt, epoch, before, rounds[0]);
    forall reason | DecidedAs(inputs, receipt, epoch, before.watermark, rounds, reason) ensures v.Finish? && v.reason == reason {
      EndsInOneWay(inputs, receipt, epoch, before.watermark, rounds[0], reason, if v.Finish? then v.reason else reason);
    }
  }

  lemma {:induction false} RoundsDecide(inputs: Inputs, receipt: Receipt, epoch: real, before: Verdict, rounds: seq<Round>)
    requires ValidInputs(inputs) && before.Continue? && rounds != []
    requires AllScanned(inputs, receipt, epoch, rounds) && Undecided(inputs, receipt, epoch, before, rounds)
    ensures RightVerdict(inputs, receipt, epoch, before.watermark, before.checked, rounds,
                         JudgeAll(inputs, receipt, epoch, before, rounds))
    decreases |rounds|
  {
    var v, rest := Judge(inputs, receipt, epoch, before, rounds[0]), rounds[1..];
    DecidedIsLast(inputs, receipt, epoch, before, rounds);
    if rest == [] {
      assert JudgeAll(inputs, receipt, epoch, before, rounds) == v;
      RightFirst(inputs, receipt, epoch, before, rounds);
    } else {
      RoundJudged(inputs, receipt, epoch, before, rounds[0]);
      LaterScanned(inputs, receipt, epoch, rounds);
      RoundsDecide(inputs, receipt, epoch, v, rest);
      RightLater(inputs, receipt, epoch, before.watermark, before.checked, rounds, JudgeAll(inputs, receipt, epoch, v, rest));
    }
  }

  /** An observation is decided in one way only. */
  lemma DecidedInOneWay(inputs: Inputs, receipt: Receipt, epoch: real, rounds: seq<Round>, a: Reason, b: Reason)
    requires DecidedAs(inputs, receipt, epoch, 0.0, rounds, a) && DecidedAs(inputs, receipt, epoch, 0.0, rounds, b)
    ensures a == b
  {
    var n := |rounds| - 1;
    EndsInOneWay(inputs, receipt, epoch, KnownBefore(0.0, rounds, n), rounds[n], a, b);
  }

  /** A pass is a decision for `Verified`. */
  lemma PassedMeansVerified(inputs: Inputs, receipt: Receipt, epoch: real, rounds: seq<Round>, reason: Reason)
    requires DecidedAs(inputs, receipt, epoch, 0.0, rounds, reason)
    ensures OutcomeOf(reason) == Pass <==> DecidedAs(inputs, receipt, epoch, 0.0, rounds, Verified)
  {
    if reason != Verified && DecidedAs(inputs, receipt, epoch, 0.0, rounds, Verified) {
      DecidedInOneWay(inputs, receipt, epoch, rounds, reason, Verified);
      assert false;
    }
  }

  // ----- readiness

  function NamesOf(replicas: seq<Replica>): (names: seq<string>)
    ensures |names| == |replicas| && forall i :: 0 <= i < |names| ==> names[i] == replicas[i].name
  {
    seq(|replicas|, i requires 0 <= i < |replicas| => replicas[i].name)
  }

  /** As many elements as positions means that none is repeated. */
  lemma {:induction false} SizeMeansDistinct(s: seq<string>)
    requires |Elements(s)| == |s|
    ensures Distinct(s) && forall x :: multiset(s)[x] == if x in s then 1 else 0
  {
    if s != [] {
      var front, last := s[..|s| - 1], s[|s| - 1];
      assert s == front + [last];
      assert Elements(s) == Elements(front) + {last};
      ElementsAreFewer(front);
      assert last in front ==> Elements(front) + {last} == Elements(front);
      SizeMeansDistinct(front);
    }
  }

  lemma {:induction false} ElementsAreFewer(s: seq<string>)
    ensures |Elements(s)| <= |s|
  {
    if s != [] {
      var front, last := s[..|s| - 1], s[|s| - 1];
      assert s == front + [last];
      ElementsAreFewer(front);
      assert Elements(s) == Elements(front) + {last};
    }
  }

  lemma NamesAreElements(replicas: seq<Replica>)
    ensures (set r | r in replicas :: r.name) == Elements(NamesOf(replicas))
  {
    var names := NamesOf(replicas);
    forall n | n in Elements(names) ensures n in (set r | r in replicas :: r.name) {
      var i :| 0 <= i < |names| && names[i] == n;
      assert replicas[i] in replicas;
    }
    forall r | r in replicas ensures r.name in Elements(names) {
      var i :| 0 <= i < |replicas| && replicas[i] == r;
      assert names[i] in names;
    }
  }

  /** A deployment is ready exactly when it lists each expected replica once and no other, and
      all of them are ready in the expected version. */
  lemma ReadyExactlyWhen(receipt: Receipt, replicas: seq<Replica>)
    requires Distinct(receipt.replicas)
    ensures Ready(receipt, replicas) <==>
      && multiset(NamesOf(replicas)) == multiset(receipt.replicas)
      && forall r :: r in replicas ==> r.ready && r.version == receipt.version
  {
    var names := NamesOf(replicas);
    DistinctSize(receipt.replicas);
    SizeMeansDistinct(receipt.replicas);
    NamesAreElements(replicas);
    if multiset(names) == multiset(receipt.replicas) {
      assert |names| == |multiset(names)| == |receipt.replicas|;
      assert forall x :: x in names <==> x in multiset(names);
      assert forall x :: x in receipt.replicas <==> x in multiset(receipt.replicas);
      assert Elements(names) == Elements(receipt.replicas);
    }
    if |names| == |receipt.replicas| && Elements(names) == Elements(receipt.replicas) {
      SizeMeansDistinct(names);
      assert forall x :: x in names <==> x in Elements(names);
      assert forall x :: x in receipt.replicas <==> x in Elements(receipt.replicas);
      assert multiset(names) == multiset(receipt.replicas);
    }
  }
}
