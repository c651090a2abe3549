/** What the figures of a savings report are, read off the buckets one by one
    (statistics_service.py:21-134). */
module StatisticsFigures {
  import opened Prelude
  import opened Domain
  import opened Statistics
  import L = Ledger

  datatype Figure = AllRuns | Ongoing | Ended | Useful | Succeeded | Detected | Broken

  /** Which runs a figure counts. */
  predicate Counts(f: Figure, b: Bucket) {
    match f
    case AllRuns => true
    case Ongoing => b.state == Running
    case Ended => b.state != Running
    case Useful => b.state == Completed && b.outcome in {Pass, Fail} && b.effects in {NoEffects, FullEffects}
    case Succeeded => b.state == Completed && b.outcome == Pass && b.effects in {NoEffects, FullEffects}
    case Detected => b.state == Completed && b.outcome == Fail && b.effects in {NoEffects, FullEffects}
    case Broken => b.state in {Errored, Blocked, Cancelled}
  }

  function FigureOf(f: Figure, b: Bucket): int {
    if Counts(f, b) then b.count else 0
  }

  /** The runs of a workflow that a figure counts. */
  function Number(buckets: seq<Bucket>, ref: Ref, f: Figure): int {
    if buckets == [] then 0
    else
      var b := buckets[0];
      (if b.purpose == ForWorkflow && b.ref == ref && Counts(f, b) then b.count else 0) + Number(buckets[1..], ref, f)
  }

  /** The runs of all workflows on a day. */
  function NumberOn(buckets: seq<Bucket>, day: Day, f: Figure): int {
    if buckets == [] then 0
    else
      var b := buckets[0];
      (if b.purpose == ForWorkflow && b.day == day && Counts(f, b) then b.count else 0) + NumberOn(buckets[1..], day, f)
  }

  /** How long the ended runs of a workflow took. */
  function Lasted(buckets: seq<Bucket>, ref: Ref): int {
    if buckets == [] then 0
    else
      var b := buckets[0];
      (if b.purpose == ForWorkflow && b.ref == ref && b.state != Running then b.durationMs else 0)
      + Lasted(buckets[1..], ref)
  }

  lemma GroupFirst<T, K>(x: T, s: seq<T>, key: T -> K, k: K, f: T -> int)
    ensures Sum(Group([x] + s, key, k), f) == (if key(x) == k then f(x) else 0) + Sum(Group(s, key, k), f)
  {
    assert ([x] + s)[1..] == s;
    if key(x) == k {
      assert ([x] + Group(s, key, k))[1..] == Group(s, key, k);
    } else {
      assert [] + Group(s, key, k) == Group(s, key, k);
    }
  }

  /** The rows of workflows, one bucket more. */
  lemma RowsFirst(buckets: seq<Bucket>)
    requires buckets != []
    ensures Group(buckets, PurposeOf, ForWorkflow) ==
      (if buckets[0].purpose == ForWorkflow then [buckets[0]] else []) + Group(buckets[1..], PurposeOf, ForWorkflow)
  {
  }

  lemma SumFirst<K>(buckets: seq<Bucket>, key: Bucket -> K, k: K, fn: Bucket -> int)
    requires buckets != []
    ensures Sum(Group(Group(buckets, PurposeOf, ForWorkflow), key, k), fn) ==
      (if buckets[0].purpose == ForWorkflow && key(buckets[0]) == k then fn(buckets[0]) else 0)
      + Sum(Group(Group(buckets[1..], PurposeOf, ForWorkflow), key, k), fn)
  {
    var rest := Group(buckets[1..], PurposeOf, ForWorkflow);
    RowsFirst(buckets);
    if buckets[0].purpose == ForWorkflow {
      GroupFirst(buckets[0], rest, key, k, fn);
    } else {
      assert [] + rest == rest;
    }
  }

  lemma {:induction false} GroupNumber(buckets: seq<Bucket>, ref: Ref, f: Figure, fn: Bucket -> int)
    requires forall b :: fn(b) == FigureOf(f, b)
    ensures Sum(Group(Group(buckets, PurposeOf, ForWorkflow), RefOf, ref), fn) == Number(buckets, ref, f)
  {
    if buckets != [] {
      SumFirst(buckets, RefOf, ref, fn);
      GroupNumber(buckets[1..], ref, f, fn);
    }
  }

  lemma {:induction false} GroupNumberOn(buckets: seq<Bucket>, day: Day, f: Figure, fn: Bucket -> int)
    requires forall b :: fn(b) == FigureOf(f, b)
    ensures Sum(Group(Group(buckets, PurposeOf, ForWorkflow), DayOf, day), fn) == NumberOn(buckets, day, f)
  {
    if buckets != [] {
      SumFirst(buckets, DayOf, day, fn);
      GroupNumberOn(buckets[1..], day, f, fn);
    }
  }

  lemma {:induction false} GroupLasted(buckets: seq<Bucket>, ref: Ref)
    ensures Sum(Group(Group(buckets, PurposeOf, ForWorkflow), RefOf, ref), DurationOf) == Lasted(buckets, ref)
  {
    if buckets != [] {
      SumFirst(buckets, RefOf, ref, DurationOf);
      GroupLasted(buckets[1..], ref);
    }
  }

  /** The row of a workflow is what its own runs say. */
  ghost predicate IsRow(w: Workflow, buckets: seq<Bucket>) {
    && w.runs == Number(buckets, w.ref, AllRuns) && w.terminal == Number(buckets, w.ref, Ended)
    && w.running == Number(buckets, w.ref, Ongoing) && w.verified == Number(buckets, w.ref, Useful)
    && w.passed == Number(buckets, w.ref, Succeeded) && w.detectedFailures == Number(buckets, w.ref, Detected)
    && w.executionErrors == Number(buckets, w.ref, Broken) && w.durationMs == Lasted(buckets, w.ref)
  }

  /** What a workflow is said to have saved: known with a baseline and a terminal run, the manual
      tokens of every verified run against those of every terminal run and the setup. */
  ghost predicate IsPriced(w: Workflow) {
    if w.baseline.Some? && w.terminal != 0 then
      && w.manual == Some(w.verified * w.baseline.value.manualTokens)
      && w.owlmatic == Some(w.terminal * w.baseline.value.owlmaticTokens)
      && w.net == Some(w.manual.value - w.owlmatic.value - w.baseline.value.setupTokens)
    else w.manual.None? && w.owlmatic.None? && w.net.None?
  }

  function RowsFor(buckets: seq<Bucket>, ref: Ref): seq<Bucket> {
    Group(Group(buckets, PurposeOf, ForWorkflow), RefOf, ref)
  }

  lemma RunNumbers(buckets: seq<Bucket>, ref: Ref)
    ensures Sum(RowsFor(buckets, ref), CountOf) == Number(buckets, ref, AllRuns)
    ensures Sum(RowsFor(buckets, ref), RunningOf) == Number(buckets, ref, Ongoing)
    ensures Sum(RowsFor(buckets, ref), TerminalOf) == Number(buckets, ref, Ended)
  {
    GroupNumber(buckets, ref, AllRuns, CountOf);
    GroupNumber(buckets, ref, Ongoing, RunningOf);
    GroupNumber(buckets, ref, Ended, TerminalOf);
  }

  lemma VerdictNumbers(buckets: seq<Bucket>, ref: Ref)
    ensures Sum(RowsFor(buckets, ref), VerifiedOf) == Number(buckets, ref, Useful)
    ensures Sum(RowsFor(buckets, ref), PassedOf) == Number(buckets, ref, Succeeded)
    ensures Sum(RowsFor(buckets, ref), DetectedOf) == Number(buckets, ref, Detected)
    ensures Sum(RowsFor(buckets, ref), ErrorsOf) == Number(buckets, ref, Broken)
  {
    GroupNumber(buckets, ref, Useful, VerifiedOf);
    GroupNumber(buckets, ref, Succeeded, PassedOf);
    GroupNumber(buckets, ref, Detected, DetectedOf);
    GroupNumber(buckets, ref, Broken, ErrorsOf);
  }

  lemma RowOf(ref: Ref, buckets: seq<Bucket>, baseline: Option<Baseline>)
    ensures var w := WorkflowStatistics(ref, RowsFor(buckets, ref), baseline);
      w.ref == ref && w.baseline == baseline && IsRow(w, buckets)
  {
    RunNumbers(buckets, ref);
    VerdictNumbers(buckets, ref);
    GroupLasted(buckets, ref);
    SumsSplit(RowsFor(buckets, ref));
  }

  lemma PriceOf(ref: Ref, rows: seq<Bucket>, baseline: Option<Baseline>)
    ensures IsPriced(WorkflowStatistics(ref, rows, baseline))
  {
  }

  // ----- the order of the rows

  lemma {:induction false} BeforeIsTotal(a: string, b: string)
    ensures a == b || L.Before(a, b) || L.Before(b, a)
    decreases |a|
  {
    if a != "" && b != "" && a[0] == b[0] {
      BeforeIsTotal(a[1..], b[1..]);
      assert a == [a[0]] + a[1..] && b == [b[0]] + b[1..];
    }
  }

  lemma {:induction false} BeforeIsTransitive(a: string, b: string, c: string)
    requires L.Before(a, b) && L.Before(b, c)
    ensures L.Before(a, c)
    decreases |a|
  {
    if a != "" && a[0] == b[0] == c[0] { BeforeIsTransitive(a[1..], b[1..], c[1..]); }
  }

  ghost predicate InOrder(refs: seq<Ref>) {
    forall i, j :: 0 <= i < j < |refs| ==> L.Before(refs[i], refs[j])
  }

  lemma FirstIsLeast(x: Ref, refs: seq<Ref>)
    requires InOrder(refs) && (refs != [] ==> L.Before(x, refs[0]))
    ensures InOrder([x] + refs)
  {
    var all := [x] + refs;
    forall i, j | 0 <= i < j < |all| ensures L.Before(all[i], all[j]) {
      if i == 0 && j > 1 { BeforeIsTransitive(x, refs[0], refs[j - 1]); }
    }
  }

  lemma {:induction false} InsertKeepsOrder(refs: seq<Ref>, r: Ref)
    requires Distinct(refs) && InOrder(refs)
    ensures InOrder(InsertRef(refs, r))
    ensures refs != [] ==> InsertRef(refs, r)[0] == (if L.Before(r, refs[0]) && r !in refs then r else refs[0])
    decreases |refs|
  {
    if refs == [] {
    } else if refs[0] == r {
    } else if L.Before(r, refs[0]) {
      FirstIsLeast(r, refs);
    } else {
      BeforeIsTotal(refs[0], r);
      InsertKeepsOrder(refs[1..], r);
      FirstIsLeast(refs[0], InsertRef(refs[1..], r));
    }
  }

  lemma {:induction false} RefsInOrder(rows: seq<Bucket>)
    ensures InOrder(Refs(rows))
  {
    if rows != [] {
      RefsInOrder(rows[..|rows| - 1]);
      InsertKeepsOrder(Refs(rows[..|rows| - 1]), rows[|rows| - 1].ref);
    }
  }

  ghost predicate Ran(buckets: seq<Bucket>, ref: Ref) {
    exists b :: b in buckets && b.purpose == ForWorkflow && b.ref == ref
  }

  ghost predicate HasRow(w: seq<Workflow>, ref: Ref) {
    exists i :: 0 <= i < |w| && w[i].ref == ref
  }

  /** One row for each workflow that ran, in text order. */
  ghost predicate ListsAll(w: seq<Workflow>, buckets: seq<Bucket>) {
    && (forall i, j :: 0 <= i < j < |w| ==> L.Before(w[i].ref, w[j].ref))
    && forall ref :: HasRow(w, ref) <==> Ran(buckets, ref)
  }

  lemma RowsListAll(buckets: seq<Bucket>, baselines: map<Ref, Baseline>)
    ensures var rows := Group(buckets, PurposeOf, ForWorkflow); ListsAll(Workflows(Refs(rows), rows, baselines), buckets)
  {
    var rows := Group(buckets, PurposeOf, ForWorkflow);
    var refs, w := Refs(rows), Workflows(Refs(rows), rows, baselines);
    RowsAreExact(refs, buckets, baselines);
    RefsInOrder(rows);
    forall ref ensures HasRow(w, ref) <==> Ran(buckets, ref) {
      RefsAreThose(buckets, ref);
      if ref in refs {
        var i :| 0 <= i < |refs| && refs[i] == ref;
        assert w[i].ref == ref;
      }
      if HasRow(w, ref) {
        var i :| 0 <= i < |w| && w[i].ref == ref;
        assert refs[i] in refs;
      }
    }
  }

  lemma RefsAreThose(buckets: seq<Bucket>, ref: Ref)
    ensures ref in Refs(Group(buckets, PurposeOf, ForWorkflow)) <==> Ran(buckets, ref)
  {
    GroupIsPart(buckets, PurposeOf, ForWorkflow);
  }

  lemma ReportParts(buckets: seq<Bucket>, baselines: map<Ref, Baseline>, start: Day, days: nat)
    ensures var r := MakeReport(buckets, baselines, start, days); var rows := Group(buckets, PurposeOf, ForWorkflow);
      && r.workflows == Workflows(Refs(rows), rows, baselines)
      && r.daily == Calendar(Days(start, days), rows, baselines, r.net.Some?)
  {
  }

  /** The report has one row for each workflow that ran, in text order, and each row is what the
      runs of its workflow say, priced by the baseline of that workflow. */
  lemma WorkflowsAreExact(buckets: seq<Bucket>, baselines: map<Ref, Baseline>, start: Day, days: nat)
    ensures var w := MakeReport(buckets, baselines, start, days).workflows;
      ListsAll(w, buckets) && forall i :: 0 <= i < |w| ==> IsExact(w[i], buckets, baselines)
  {
    ReportParts(buckets, baselines, start, days);
    RowsListAll(buckets, baselines);
    RowsAreExact(Refs(Group(buckets, PurposeOf, ForWorkflow)), buckets, baselines);
  }

  ghost predicate IsExact(w: Workflow, buckets: seq<Bucket>, baselines: map<Ref, Baseline>) {
    IsRow(w, buckets) && IsPriced(w) && w.baseline == BaselineOf(baselines, w.ref)
  }

  lemma RowsAreExact(refs: seq<Ref>, buckets: seq<Bucket>, baselines: map<Ref, Baseline>)
    ensures var w := Workflows(refs, Group(buckets, PurposeOf, ForWorkflow), baselines);
      && |w| == |refs|
      && forall i :: 0 <= i < |w| ==>
           w[i].ref == refs[i] && IsExact(w[i], buckets, baselines)
  {
    var rows := Group(buckets, PurposeOf, ForWorkflow);
    var w := Workflows(refs, rows, baselines);
    WorkflowsAt(refs, rows, baselines);
    forall i | 0 <= i < |w|
      ensures w[i].ref == refs[i] && IsExact(w[i], buckets, baselines)
    {
      assert w[i] == StatisticsAt(refs[i], rows, baselines);
      RowOf(refs[i], buckets, BaselineOf(baselines, refs[i]));
      PriceOf(refs[i], RowsFor(buckets, refs[i]), BaselineOf(baselines, refs[i]));
    }
  }

  // ----- days

  /** What the runs of a day saved before setup: each ended run of a workflow with a baseline costs
      its tokens, and each useful one replaces a manual task. */
  function SavedOnDay(buckets: seq<Bucket>, baselines: map<Ref, Baseline>, day: Day): int {
    if buckets == [] then 0
    else
      var b := buckets[0];
      (if b.purpose == ForWorkflow && b.day == day && b.ref in baselines then
         FigureOf(Useful, b) * baselines[b.ref].manualTokens - FigureOf(Ended, b) * baselines[b.ref].owlmaticTokens
       else 0)
      + SavedOnDay(buckets[1..], baselines, day)
  }

  lemma {:induction false} GroupSaved(buckets: seq<Bucket>, baselines: map<Ref, Baseline>, day: Day)
    ensures Sum(Group(Group(buckets, PurposeOf, ForWorkflow), DayOf, day), OperatingWith(baselines))
      == SavedOnDay(buckets, baselines, day)
  {
    if buckets != [] {
      SumFirst(buckets, DayOf, day, OperatingWith(baselines));
      GroupSaved(buckets[1..], baselines, day);
      if buckets[0].ref in baselines { OperatingOfOne(buckets[0], baselines); }
    }
  }

  /** The entry of a day is what its runs say. */
  ghost predicate IsDay(d: Daily, buckets: seq<Bucket>, baselines: map<Ref, Baseline>, day: Day, known: bool) {
    && d.day == day && d.runs == NumberOn(buckets, day, AllRuns) && d.verified == NumberOn(buckets, day, Useful)
    && d.savedBeforeSetup == if known then Some(SavedOnDay(buckets, baselines, day)) else None
  }

  lemma DayIsExact(buckets: seq<Bucket>, baselines: map<Ref, Baseline>, day: Day, known: bool)
    ensures IsDay(DayAt(day, Group(buckets, PurposeOf, ForWorkflow), baselines, known), buckets, baselines, day, known)
  {
    GroupNumberOn(buckets, day, AllRuns, CountOf);
    GroupNumberOn(buckets, day, Useful, VerifiedOf);
    GroupSaved(buckets, baselines, day);
  }

  lemma CalendarIsExact(buckets: seq<Bucket>, baselines: map<Ref, Baseline>, start: Day, days: nat, known: bool)
    ensures var c := Calendar(Days(start, days), Group(buckets, PurposeOf, ForWorkflow), baselines, known);
      |c| == days && forall i :: 0 <= i < days ==> IsDay(c[i], buckets, baselines, start + i, known)
  {
    var rows := Group(buckets, PurposeOf, ForWorkflow);
    var c := Calendar(Days(start, days), rows, baselines, known);
    CalendarAt(Days(start, days), rows, baselines, known);
    forall i | 0 <= i < days ensures IsDay(c[i], buckets, baselines, start + i, known) {
      assert c[i] == DayAt(start + i, rows, baselines, known);
      DayIsExact(buckets, baselines, start + i, known);
    }
  }

  /** The calendar has every day of the window once and in order, with the runs of that day. */
  lemma DaysAreExact(buckets: seq<Bucket>, baselines: map<Ref, Baseline>, start: Day, days: nat)
    ensures var r := MakeReport(buckets, baselines, start, days);
      && |r.daily| == days
      && forall i :: 0 <= i < days ==> IsDay(r.daily[i], buckets, baselines, start + i, r.net.Some?)
  {
    ReportParts(buckets, baselines, start, days);
    CalendarIsExact(buckets, baselines, start, days, MakeReport(buckets, baselines, start, days).net.Some?);
  }

  // ----- totals

  /** Over all rows with a net figure. */
  function OverModeled(w: seq<Workflow>, part: Workflow -> int): int {
    if w == [] then 0 else (if w[0].net.Some? then part(w[0]) else 0) + OverModeled(w[1..], part)
  }

  lemma {:induction false} ModeledSum(w: seq<Workflow>, part: Workflow -> int)
    ensures Sum(Modeled(w), part) == OverModeled(w, part)
    ensures Modeled(w) != [] <==> exists i :: 0 <= i < |w| && w[i].net.Some?
  {
    if w != [] {
      ModeledSum(w[1..], part);
      var rest := Modeled(w[1..]);
      assert ([w[0]] + rest)[1..] == rest && [] + rest == rest;
      if w[0].net.Some? {
        assert Sum([w[0]] + rest, part) == part(w[0]) + Sum(rest, part);
      }
      if i :| 0 <= i < |w| && w[i].net.Some? {
        if i > 0 { assert w[1..][i - 1].net.Some?; }
      }
      if i :| 0 <= i < |w[1..]| && w[1..][i].net.Some? { assert w[i + 1].net.Some?; }
    }
  }

  /** Each token total is that of the priced workflows alone, and all are known together. */
  lemma TotalsAreExact(buckets: seq<Bucket>, baselines: map<Ref, Baseline>, start: Day, days: nat)
    ensures var r := MakeReport(buckets, baselines, start, days);
      var known := exists i :: 0 <= i < |r.workflows| && r.workflows[i].net.Some?;
      && r.modeledRuns == OverModeled(r.workflows, TerminalIn)
      && r.manual == (if known then Some(OverModeled(r.workflows, ManualIn)) else None)
      && r.owlmatic == (if known then Some(OverModeled(r.workflows, OwlmaticIn)) else None)
      && r.setup == (if known then Some(OverModeled(r.workflows, SetupIn)) else None)
      && r.net == (if known then Some(OverModeled(r.workflows, NetIn)) else None)
  {
    var w := MakeReport(buckets, baselines, start, days).workflows;
    ModeledSum(w, TerminalIn);
    ModeledSum(w, ManualIn);
    ModeledSum(w, OwlmaticIn);
    ModeledSum(w, SetupIn);
    ModeledSum(w, NetIn);
  }
}
