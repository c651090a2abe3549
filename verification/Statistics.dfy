/** The savings report (statistics_service.py:21-134): the same runs counted by workflow and by
    day. */
module Statistics {
  import opened Prelude
  import opened Domain
  import L = Ledger

  type Ref = string

  /** Dates as day numbers. */
  type Day = int

  datatype Bucket = Bucket(day: Day, ref: Ref, purpose: Purpose, state: RunState, outcome: Outcome, effects: Effects,
    count: nat, durationMs: nat)

  datatype Baseline = Baseline(manualTokens: nat, owlmaticTokens: nat, setupTokens: nat)

  datatype Workflow = Workflow(ref: Ref, runs: int, terminal: int, verified: int, passed: int, detectedFailures: int,
    executionErrors: int, running: int, durationMs: int, baseline: Option<Baseline>,
    manual: Option<int>, owlmatic: Option<int>, net: Option<int>)

  datatype Daily = Daily(day: Day, runs: int, verified: int, savedBeforeSetup: Option<int>)

  datatype Report = Report(runs: int, terminal: int, verified: int, executionErrors: int, running: int, durationMs: int,
    validationRuns: int, legacyRuns: int, modeledRuns: int,
    manual: Option<int>, owlmatic: Option<int>, setup: Option<int>, net: Option<int>,
    workflows: seq<Workflow>, daily: seq<Daily>)

  // ----- sums

  function Sum<T>(s: seq<T>, f: T -> int): int {
    if s == [] then 0 else f(s[0]) + Sum(s[1..], f)
  }

  function Group<T, K(==)>(s: seq<T>, key: T -> K, k: K): seq<T> {
    if s == [] then [] else (if key(s[0]) == k then [s[0]] else []) + Group(s[1..], key, k)
  }

  function SumGroups<T, K(==)>(keys: seq<K>, s: seq<T>, key: T -> K, f: T -> int): int {
    if keys == [] then 0 else Sum(Group(s, key, keys[0]), f) + SumGroups(keys[1..], s, key, f)
  }

  lemma {:induction false} OneMoreInGroups<T, K>(keys: seq<K>, x: T, s: seq<T>, key: T -> K, f: T -> int)
    requires Distinct(keys)
    ensures SumGroups(keys, [x] + s, key, f) == SumGroups(keys, s, key, f) + (if key(x) in keys then f(x) else 0)
  {
    assert ([x] + s)[1..] == s;
    if keys != [] {
      OneMoreInGroups(keys[1..], x, s, key, f);
      var g := Group(s, key, keys[0]);
      assert [x] + g != [] && ([x] + g)[1..] == g;
      assert [] + g == g;
      assert key(x) in keys <==> key(x) == keys[0] || key(x) in keys[1..];
    }
  }

  lemma {:induction false} NoGroups<T, K>(keys: seq<K>, key: T -> K, f: T -> int)
    ensures SumGroups(keys, [], key, f) == 0
  {
    if keys != [] { NoGroups(keys[1..], key, f); }
  }

  /** Groups by different keys that together take everything in add up to the whole. */
  lemma {:induction false} GroupsAddUp<T, K>(keys: seq<K>, s: seq<T>, key: T -> K, f: T -> int)
    requires Distinct(keys) && forall x :: x in s ==> key(x) in keys
    ensures SumGroups(keys, s, key, f) == Sum(s, f)
    decreases |s|
  {
    if s == [] {
      NoGroups(keys, key, f);
    } else {
      assert s == [s[0]] + s[1..];
      OneMoreInGroups(keys, s[0], s[1..], key, f);
      GroupsAddUp(keys, s[1..], key, f);
    }
  }

  // ----- what is counted

  /** A verified negative finding counts too; unknown effects and inconclusive results do not. */
  predicate Verified(b: Bucket) {
    && b.state == Completed && (b.outcome == Pass || b.outcome == Fail)
    && (b.effects == NoEffects || b.effects == FullEffects)
  }

  predicate IsError(b: Bucket) {
    b.state == Errored || b.state == Blocked || b.state == Cancelled
  }

  function CountOf(b: Bucket): int {
    b.count
  }

  function RunningOf(b: Bucket): int {
    if b.state == Running then b.count else 0
  }

  function TerminalOf(b: Bucket): int {
    if b.state == Running then 0 else b.count
  }

  function VerifiedOf(b: Bucket): int {
    if Verified(b) then b.count else 0
  }

  function PassedOf(b: Bucket): int {
    if Verified(b) && b.outcome == Pass then b.count else 0
  }

  function DetectedOf(b: Bucket): int {
    if Verified(b) && b.outcome == Fail then b.count else 0
  }

  function ErrorsOf(b: Bucket): int {
    if IsError(b) then b.count else 0
  }

  function DurationOf(b: Bucket): int {
    if b.state == Running then 0 else b.durationMs
  }

  function PurposeOf(b: Bucket): Purpose {
    b.purpose
  }

  function RefOf(b: Bucket): Ref {
    b.ref
  }

  function DayOf(b: Bucket): Day {
    b.day
  }

  function WorkflowStatistics(ref: Ref, rows: seq<Bucket>, baseline: Option<Baseline>): Workflow {
    var total, running, completed := Sum(rows, CountOf), Sum(rows, RunningOf), Sum(rows, VerifiedOf);
    var terminal := total - running;
    var known := baseline.Some? && terminal != 0;
    var manual := if known then Some(completed * baseline.value.manualTokens) else None;
    var automated := if known then Some(terminal * baseline.value.owlmaticTokens) else None;
    Workflow(ref, total, terminal, completed, Sum(rows, PassedOf), Sum(rows, DetectedOf), Sum(rows, ErrorsOf), running,
             Sum(rows, DurationOf), baseline, manual, automated,
             if known then Some(manual.value - automated.value - baseline.value.setupTokens) else None)
  }

  // ----- the report

  function InsertRef(refs: seq<Ref>, r: Ref): (result: seq<Ref>)
    requires Distinct(refs)
    ensures Distinct(result) && forall x :: x in result <==> x == r || x in refs
  {
    if refs == [] then [r]
    else if refs[0] == r then refs
    else if L.Before(r, refs[0]) then
      if r in refs then refs else assert forall i :: 0 < i < |[r] + refs| ==> ([r] + refs)[i] == refs[i - 1]; [r] + refs
    else
      var tail := InsertRef(refs[1..], r);
      assert forall x :: x in refs <==> x == refs[0] || x in refs[1..];
      assert refs[0] !in refs[1..];
      assert forall i :: 0 < i < |[refs[0]] + tail| ==> ([refs[0]] + tail)[i] in tail;
      [refs[0]] + tail
  }

  /** The workflows that occur, in text order. */
  function Refs(rows: seq<Bucket>): (refs: seq<Ref>)
    ensures Distinct(refs) && forall r :: r in refs <==> exists b :: b in rows && b.ref == r
  {
    if rows == [] then []
    else
      var front, last := rows[..|rows| - 1], rows[|rows| - 1];
      assert forall b :: b in rows <==> b == last || b in front;
      InsertRef(Refs(front), last.ref)
  }

  function BaselineOf(baselines: map<Ref, Baseline>, r: Ref): Option<Baseline> {
    if r in baselines then Some(baselines[r]) else None
  }

  function Workflows(refs: seq<Ref>, rows: seq<Bucket>, baselines: map<Ref, Baseline>): seq<Workflow> {
    if refs == [] then []
    else
      [WorkflowStatistics(refs[0], Group(rows, RefOf, refs[0]), BaselineOf(baselines, refs[0]))]
      + Workflows(refs[1..], rows, baselines)
  }

  function Modeled(workflows: seq<Workflow>): (m: seq<Workflow>)
    ensures forall w :: w in m ==> w.net.Some?
  {
    if workflows == [] then []
    else (if workflows[0].net.Some? then [workflows[0]] else []) + Modeled(workflows[1..])
  }

  /** What a bucket saved or cost, before setup. */
  function Operating(baselines: map<Ref, Baseline>, b: Bucket): int {
    if b.ref in baselines && b.state != Running then
      b.count * ((if Verified(b) then baselines[b.ref].manualTokens else 0) - baselines[b.ref].owlmaticTokens)
    else 0
  }

  function OperatingWith(baselines: map<Ref, Baseline>): Bucket -> int {
    b => Operating(baselines, b)
  }

  function DailyStatistics(day: Day, rows: seq<Bucket>, baselines: map<Ref, Baseline>, modeled: bool): Daily {
    Daily(day, Sum(rows, CountOf), Sum(rows, VerifiedOf),
          if modeled then Some(Sum(rows, OperatingWith(baselines))) else None)
  }

  function Days(start: Day, days: nat): (d: seq<Day>)
    ensures |d| == days && forall i :: 0 <= i < days ==> d[i] == start + i
  {
    seq(days, i => start + i)
  }

  function Calendar(days: seq<Day>, rows: seq<Bucket>, baselines: map<Ref, Baseline>, modeled: bool): seq<Daily> {
    if days == [] then []
    else
      [DailyStatistics(days[0], Group(rows, DayOf, days[0]), baselines, modeled)]
      + Calendar(days[1..], rows, baselines, modeled)
  }

  function OrZero(x: Option<int>): int {
    if x.Some? then x.value else 0
  }

  function RunsIn(w: Workflow): int { w.runs }
  function TerminalIn(w: Workflow): int { w.terminal }
  function VerifiedIn(w: Workflow): int { w.verified }
  function ErrorsIn(w: Workflow): int { w.executionErrors }
  function RunningIn(w: Workflow): int { w.running }
  function DurationIn(w: Workflow): int { w.durationMs }
  function ManualIn(w: Workflow): int { OrZero(w.manual) }
  function OwlmaticIn(w: Workflow): int { OrZero(w.owlmatic) }
  function SetupIn(w: Workflow): int { if w.baseline.Some? then w.baseline.value.setupTokens else 0 }
  function NetIn(w: Workflow): int { OrZero(w.net) }

  function Known(known: bool, x: int): Option<int> {
    if known then Some(x) else None
  }

  function MakeReport(buckets: seq<Bucket>, baselines: map<Ref, Baseline>, start: Day, days: nat): Report {
    var rows := Group(buckets, PurposeOf, ForWorkflow);
    var workflows := Workflows(Refs(rows), rows, baselines);
    var modeled := Modeled(workflows);
    var known := modeled != [];
    Report(
      Sum(workflows, RunsIn), Sum(workflows, TerminalIn), Sum(workflows, VerifiedIn), Sum(workflows, ErrorsIn),
      Sum(workflows, RunningIn), Sum(workflows, DurationIn),
      Sum(Group(buckets, PurposeOf, ForValidation), CountOf), Sum(Group(buckets, PurposeOf, ForUnknown), CountOf),
      Sum(modeled, TerminalIn),
      Known(known, Sum(modeled, ManualIn)), Known(known, Sum(modeled, OwlmaticIn)),
      Known(known, Sum(modeled, SetupIn)), Known(known, Sum(modeled, NetIn)),
      workflows, Calendar(Days(start, days), rows, baselines, known))
  }

  // ----- one workflow

  lemma {:induction false} SumsSplit(rows: seq<Bucket>)
    ensures Sum(rows, CountOf) == Sum(rows, RunningOf) + Sum(rows, TerminalOf)
    ensures Sum(rows, VerifiedOf) == Sum(rows, PassedOf) + Sum(rows, DetectedOf)
    ensures 0 <= Sum(rows, VerifiedOf) && Sum(rows, VerifiedOf) + Sum(rows, ErrorsOf) <= Sum(rows, TerminalOf)
    ensures 0 <= Sum(rows, ErrorsOf)
  {
    if rows != [] { SumsSplit(rows[1..]); }
  }

  lemma {:induction false} OperatingOfRows(rows: seq<Bucket>, ref: Ref, baselines: map<Ref, Baseline>)
    requires forall b :: b in rows ==> b.ref == ref
    ensures Sum(rows, OperatingWith(baselines)) ==
      if ref in baselines
      then Sum(rows, VerifiedOf) * baselines[ref].manualTokens - Sum(rows, TerminalOf) * baselines[ref].owlmaticTokens
      else 0
  {
    if rows != [] {
      assert rows[0] in rows;
      OperatingOfRows(rows[1..], ref, baselines);
      if ref in baselines {
        var m, o := baselines[ref].manualTokens, baselines[ref].owlmaticTokens;
        Distribute(VerifiedOf(rows[0]), Sum(rows[1..], VerifiedOf), m);
        Distribute(TerminalOf(rows[0]), Sum(rows[1..], TerminalOf), o);
        OperatingOfOne(rows[0], baselines);
      }
    }
  }

  lemma Distribute(a: int, b: int, c: int)
    ensures (a + b) * c == a * c + b * c
  {
  }

  lemma OperatingOfOne(b: Bucket, baselines: map<Ref, Baseline>)
    requires b.ref in baselines
    ensures Operating(baselines, b)
      == VerifiedOf(b) * baselines[b.ref].manualTokens - TerminalOf(b) * baselines[b.ref].owlmaticTokens
  {
    if b.state != Running && Verified(b) {
      var m: int, o: int := baselines[b.ref].manualTokens, baselines[b.ref].owlmaticTokens;
      assert b.count * (m - o) == b.count * m - b.count * o;
    }
  }

  lemma {:induction false} GroupIsPart<T, K>(s: seq<T>, key: T -> K, k: K)
    ensures forall x :: x in Group(s, key, k) <==> x in s && key(x) == k
  {
    if s != [] {
      GroupIsPart(s[1..], key, k);
      assert forall x :: x in s <==> x == s[0] || x in s[1..];
    }
  }

  /** What a modeled workflow saved is what its runs saved less its setup; the runs of one that
      is not modeled saved nothing. */
  lemma NetOfWorkflow(ref: Ref, rows: seq<Bucket>, baselines: map<Ref, Baseline>)
    ensures var g := Group(rows, RefOf, ref); var w := WorkflowStatistics(ref, g, BaselineOf(baselines, ref));
      Sum(g, OperatingWith(baselines)) == if w.net.Some? then w.net.value + SetupIn(w) else 0
  {
    var g := Group(rows, RefOf, ref);
    GroupIsPart(rows, RefOf, ref);
    OperatingOfRows(g, ref, baselines);
    SumsSplit(g);
    var w := WorkflowStatistics(ref, g, BaselineOf(baselines, ref));
    if w.net.None? && ref in baselines {
      assert Sum(g, TerminalOf) == 0 && Sum(g, VerifiedOf) == 0;
    }
  }

  // ----- all workflows, all days

  lemma {:induction false} WorkflowSums(refs: seq<Ref>, rows: seq<Bucket>, baselines: map<Ref, Baseline>,
      inWorkflow: Workflow -> int, ofBucket: Bucket -> int)
    requires forall r, g: seq<Bucket>, b :: inWorkflow(WorkflowStatistics(r, g, b)) == Sum(g, ofBucket)
    ensures Sum(Workflows(refs, rows, baselines), inWorkflow) == SumGroups(refs, rows, RefOf, ofBucket)
  {
    if refs != [] {
      var w := WorkflowStatistics(refs[0], Group(rows, RefOf, refs[0]), BaselineOf(baselines, refs[0]));
      WorkflowSums(refs[1..], rows, baselines, inWorkflow, ofBucket);
      assert ([w] + Workflows(refs[1..], rows, baselines))[1..] == Workflows(refs[1..], rows, baselines);
    }
  }

  lemma {:induction false} NetSums(refs: seq<Ref>, rows: seq<Bucket>, baselines: map<Ref, Baseline>)
    ensures var modeled := Modeled(Workflows(refs, rows, baselines));
      Sum(modeled, NetIn) + Sum(modeled, SetupIn) == SumGroups(refs, rows, RefOf, OperatingWith(baselines))
  {
    if refs != [] {
      var w := WorkflowStatistics(refs[0], Group(rows, RefOf, refs[0]), BaselineOf(baselines, refs[0]));
      var rest := Workflows(refs[1..], rows, baselines);
      NetSums(refs[1..], rows, baselines);
      NetOfWorkflow(refs[0], rows, baselines);
      assert ([w] + rest)[1..] == rest && ([w] + rest)[0] == w;
      assert ([w] + Modeled(rest))[1..] == Modeled(rest) && [] + Modeled(rest) == Modeled(rest);
    }
  }

  function RunsOn(d: Daily): int { d.runs }
  function VerifiedOn(d: Daily): int { d.verified }
  function SavedOn(d: Daily): int { OrZero(d.savedBeforeSetup) }

  lemma {:induction false} CalendarSums(days: seq<Day>, rows: seq<Bucket>, baselines: map<Ref, Baseline>, known: bool)
    ensures var c := Calendar(days, rows, baselines, known);
      && Sum(c, RunsOn) == SumGroups(days, rows, DayOf, CountOf)
      && Sum(c, VerifiedOn) == SumGroups(days, rows, DayOf, VerifiedOf)
      && (known ==> Sum(c, SavedOn) == SumGroups(days, rows, DayOf, OperatingWith(baselines)))
      && (forall d :: d in c ==> d.savedBeforeSetup.Some? == known)
  {
    if days != [] {
      CalendarSums(days[1..], rows, baselines, known);
      var first := DailyStatistics(days[0], Group(rows, DayOf, days[0]), baselines, known);
      var rest := Calendar(days[1..], rows, baselines, known);
      assert ([first] + rest)[1..] == rest && ([first] + rest)[0] == first;
      assert forall d :: d in [first] + rest <==> d == first || d in rest;
    }
  }

  lemma RefsTakeAll(rows: seq<Bucket>)
    ensures forall b :: b in rows ==> RefOf(b) in Refs(rows)
  {
  }

  /** The same runs, by day and by workflow: the daily savings less the setup are the net
      savings, and the daily counts add up to the totals. */
  lemma DaysAndWorkflowsAgree(buckets: seq<Bucket>, baselines: map<Ref, Baseline>, start: Day, days: nat)
    requires forall b :: b in buckets && b.purpose == ForWorkflow ==> start <= b.day < start + days
    ensures var r := MakeReport(buckets, baselines, start, days);
      && Sum(r.daily, RunsOn) == r.runs && Sum(r.daily, VerifiedOn) == r.verified
      && (r.net.Some? ==> r.setup.Some? && Sum(r.daily, SavedOn) - r.setup.value == r.net.value)
      && (forall d :: d in r.daily ==> d.savedBeforeSetup.Some? == r.net.Some?)
  {
    var rows := Group(buckets, PurposeOf, ForWorkflow);
    var refs, calendar := Refs(rows), Days(start, days);
    GroupIsPart(buckets, PurposeOf, ForWorkflow);
    RefsTakeAll(rows);
    forall b | b in rows ensures DayOf(b) in calendar { assert calendar[b.day - start] == b.day; }
    WorkflowSums(refs, rows, baselines, RunsIn, CountOf);
    WorkflowSums(refs, rows, baselines, VerifiedIn, VerifiedOf);
    NetSums(refs, rows, baselines);
    CalendarSums(calendar, rows, baselines, Modeled(Workflows(refs, rows, baselines)) != []);
    BothWays(refs, calendar, rows, CountOf);
    BothWays(refs, calendar, rows, VerifiedOf);
    BothWays(refs, calendar, rows, OperatingWith(baselines));
  }

  lemma BothWays(refs: seq<Ref>, calendar: seq<Day>, rows: seq<Bucket>, f: Bucket -> int)
    requires Distinct(refs) && Distinct(calendar)
    requires forall b :: b in rows ==> RefOf(b) in refs && DayOf(b) in calendar
    ensures SumGroups(refs, rows, RefOf, f) == Sum(rows, f) == SumGroups(calendar, rows, DayOf, f)
  {
    GroupsAddUp(refs, rows, RefOf, f);
    GroupsAddUp(calendar, rows, DayOf, f);
  }

  /** Every run is counted once: for a workflow, as a validation, or as a legacy run; and each
      total of the report is the sum over the runs of workflows, however they are grouped. */
  lemma EveryRunIsCounted(buckets: seq<Bucket>, baselines: map<Ref, Baseline>, start: Day, days: nat)
    ensures var r := MakeReport(buckets, baselines, start, days);
      && r.runs + r.validationRuns + r.legacyRuns == Sum(buckets, CountOf)
      && r.runs == r.running + r.terminal && r.verified + r.executionErrors <= r.terminal
      && var rows := Group(buckets, PurposeOf, ForWorkflow);
      && r.terminal == Sum(rows, TerminalOf) && r.verified == Sum(rows, VerifiedOf)
      && r.executionErrors == Sum(rows, ErrorsOf) && r.durationMs == Sum(rows, DurationOf)
  {
    var rows := Group(buckets, PurposeOf, ForWorkflow);
    var refs := Refs(rows);
    RefsTakeAll(rows);
    forall g: seq<Bucket> ensures Sum(g, CountOf) - Sum(g, RunningOf) == Sum(g, TerminalOf) { SumsSplit(g); }
    WorkflowSums(refs, rows, baselines, RunsIn, CountOf);
    WorkflowSums(refs, rows, baselines, RunningIn, RunningOf);
    WorkflowSums(refs, rows, baselines, TerminalIn, TerminalOf);
    WorkflowSums(refs, rows, baselines, VerifiedIn, VerifiedOf);
    WorkflowSums(refs, rows, baselines, ErrorsIn, ErrorsOf);
    WorkflowSums(refs, rows, baselines, DurationIn, DurationOf);
    GroupsAddUp(refs, rows, RefOf, CountOf);
    GroupsAddUp(refs, rows, RefOf, RunningOf);
    GroupsAddUp(refs, rows, RefOf, TerminalOf);
    GroupsAddUp(refs, rows, RefOf, VerifiedOf);
    GroupsAddUp(refs, rows, RefOf, ErrorsOf);
    GroupsAddUp(refs, rows, RefOf, DurationOf);
    SumsSplit(rows);
    ThreePurposes(buckets);
  }

  lemma ThreePurposes(buckets: seq<Bucket>)
    ensures Sum(Group(buckets, PurposeOf, ForWorkflow), CountOf) + Sum(Group(buckets, PurposeOf, ForValidation), CountOf)
      + Sum(Group(buckets, PurposeOf, ForUnknown), CountOf) == Sum(buckets, CountOf)
  {
    var purposes := [ForWorkflow, ForValidation, ForUnknown];
    forall p: Purpose ensures p in purposes {
      match p
      case ForWorkflow => assert purposes[0] == p;
      case ForValidation => assert purposes[1] == p;
      case ForUnknown => assert purposes[2] == p;
    }
    GroupsAddUp(purposes, buckets, PurposeOf, CountOf);
    assert purposes[1..] == [ForValidation, ForUnknown] && purposes[1..][1..] == [ForUnknown];
    assert purposes[1..][1..][1..] == [];
    assert SumGroups([ForUnknown], buckets, PurposeOf, CountOf) == Sum(Group(buckets, PurposeOf, ForUnknown), CountOf);
  }

  lemma {:induction false} ModeledAddUp(refs: seq<Ref>, rows: seq<Bucket>, baselines: map<Ref, Baseline>)
    ensures var m := Modeled(Workflows(refs, rows, baselines));
      Sum(m, NetIn) == Sum(m, ManualIn) - Sum(m, OwlmaticIn) - Sum(m, SetupIn)
  {
    if refs != [] {
      var w := WorkflowStatistics(refs[0], Group(rows, RefOf, refs[0]), BaselineOf(baselines, refs[0]));
      var rest := Workflows(refs[1..], rows, baselines);
      ModeledAddUp(refs[1..], rows, baselines);
      assert ([w] + rest)[1..] == rest && ([w] + rest)[0] == w;
      assert ([w] + Modeled(rest))[1..] == Modeled(rest) && [] + Modeled(rest) == Modeled(rest);
    }
  }

  /** Finished runs of a workflow with a baseline. */
  predicate Priced(b: Bucket, baselines: map<Ref, Baseline>) {
    b.purpose == ForWorkflow && b.ref in baselines && b.state != Running && b.count > 0
  }

  /** The net savings are the manual equivalent less the cost of the runs and the setup; they
      are known exactly when a workflow with a baseline has a terminal run. */
  lemma NetIsManualLessCosts(buckets: seq<Bucket>, baselines: map<Ref, Baseline>, start: Day, days: nat)
    ensures var r := MakeReport(buckets, baselines, start, days);
      && (r.net.Some? ==>
        && r.manual.Some? && r.owlmatic.Some? && r.setup.Some?
        && r.net.value == r.manual.value - r.owlmatic.value - r.setup.value)
      && (r.net.Some? <==> exists b :: b in buckets && Priced(b, baselines))
  {
    var rows := Group(buckets, PurposeOf, ForWorkflow);
    GroupIsPart(buckets, PurposeOf, ForWorkflow);
    ModeledAddUp(Refs(rows), rows, baselines);
    ModeledWhen(Refs(rows), rows, baselines);
  }

  lemma {:induction false} TerminalWhen(rows: seq<Bucket>)
    ensures Sum(rows, TerminalOf) > 0 <==> exists b :: b in rows && b.state != Running && b.count > 0
    ensures Sum(rows, TerminalOf) >= 0
  {
    if rows != [] {
      TerminalWhen(rows[1..]);
      assert forall b :: b in rows <==> b == rows[0] || b in rows[1..];
    }
  }

  lemma {:induction false} ModeledWhen(refs: seq<Ref>, rows: seq<Bucket>, baselines: map<Ref, Baseline>)
    ensures Modeled(Workflows(refs, rows, baselines)) != [] <==>
      exists b :: b in rows && b.ref in refs && b.ref in baselines && b.state != Running && b.count > 0
  {
    if refs != [] {
      var g := Group(rows, RefOf, refs[0]);
      var w := WorkflowStatistics(refs[0], g, BaselineOf(baselines, refs[0]));
      var rest := Workflows(refs[1..], rows, baselines);
      ModeledWhen(refs[1..], rows, baselines);
      assert ([w] + rest)[1..] == rest && ([w] + rest)[0] == w;
      SumsSplit(g);
      TerminalWhen(g);
      GroupIsPart(rows, RefOf, refs[0]);
      assert forall r :: r in refs <==> r == refs[0] || r in refs[1..];
    }
  }

  // ----- the report as it is computed

  lemma {:induction false} GroupAppend<T, K>(s: seq<T>, x: T, key: T -> K, k: K)
    ensures Group(s + [x], key, k) == Group(s, key, k) + (if key(x) == k then [x] else [])
  {
    if s == [] {
      assert s + [x] == [x] && [x][1..] == [];
    } else {
      assert (s + [x])[1..] == s[1..] + [x] && (s + [x])[0] == s[0];
      GroupAppend(s[1..], x, key, k);
      var first, last := if key(s[0]) == k then [s[0]] else [], if key(x) == k then [x] else [];
      assert (first + Group(s[1..], key, k)) + last == first + (Group(s[1..], key, k) + last);
    }
  }

  function RowsAt<K>(m: map<K, seq<Bucket>>, k: K): seq<Bucket> {
    if k in m then m[k] else []
  }

  ghost predicate Groups<K(!new)>(m: map<K, seq<Bucket>>, rows: seq<Bucket>, key: Bucket -> K) {
    forall k :: RowsAt(m, k) == Group(rows, key, k)
  }

  function Appended<K>(m: map<K, seq<Bucket>>, k: K, b: Bucket): map<K, seq<Bucket>> {
    m[k := RowsAt(m, k) + [b]]
  }

  lemma GroupsAppend<K(!new)>(m: map<K, seq<Bucket>>, rows: seq<Bucket>, b: Bucket, key: Bucket -> K)
    requires Groups(m, rows, key)
    ensures Groups(Appended(m, key(b), b), rows + [b], key)
  {
    forall k ensures RowsAt(Appended(m, key(b), b), k) == Group(rows + [b], key, k) {
      GroupAppend(rows, b, key, k);
      assert Group(rows, key, k) + [] == Group(rows, key, k);
    }
  }

  /** The first loop: the rows of each workflow and of each day. */
  method GroupRows(buckets: seq<Bucket>) returns (byWorkflow: map<Ref, seq<Bucket>>, byDay: map<Day, seq<Bucket>>)
    ensures Groups(byWorkflow, Group(buckets, PurposeOf, ForWorkflow), RefOf)
    ensures Groups(byDay, Group(buckets, PurposeOf, ForWorkflow), DayOf)
  {
    byWorkflow, byDay := map[], map[];
    for i := 0 to |buckets|
      invariant Groups(byWorkflow, Group(buckets[..i], PurposeOf, ForWorkflow), RefOf)
      invariant Groups(byDay, Group(buckets[..i], PurposeOf, ForWorkflow), DayOf)
    {
      var b := buckets[i];
      ghost var rows := Group(buckets[..i], PurposeOf, ForWorkflow);
      assert buckets[..i + 1] == buckets[..i] + [b];
      GroupAppend(buckets[..i], b, PurposeOf, ForWorkflow);
      if b.purpose == ForWorkflow {
        GroupsAppend(byWorkflow, rows, b, RefOf);
        GroupsAppend(byDay, rows, b, DayOf);
        byWorkflow, byDay := Appended(byWorkflow, b.ref, b), Appended(byDay, b.day, b);
      } else {
        assert rows + [] == rows;
      }
    }
    assert buckets[..|buckets|] == buckets;
  }

  /** The inner loop of the calendar: what the runs of a day saved. */
  method CostOf(rows: seq<Bucket>, baselines: map<Ref, Baseline>) returns (cost: int)
    ensures cost == Sum(rows, OperatingWith(baselines))
  {
    cost := 0;
    for i := 0 to |rows|
      invariant cost + Sum(rows[i..], OperatingWith(baselines)) == Sum(rows, OperatingWith(baselines))
    {
      assert rows[i..][0] == rows[i] && rows[i..][1..] == rows[i + 1..];
      var bucket := rows[i];
      if bucket.ref in baselines && bucket.state != Running {
        var baseline := baselines[bucket.ref];
        cost := cost + bucket.count * ((if Verified(bucket) then baseline.manualTokens else 0) - baseline.owlmaticTokens);
      }
    }
  }

  function StatisticsAt(ref: Ref, rows: seq<Bucket>, baselines: map<Ref, Baseline>): Workflow {
    WorkflowStatistics(ref, Group(rows, RefOf, ref), BaselineOf(baselines, ref))
  }

  lemma {:induction false} WorkflowsAt(refs: seq<Ref>, rows: seq<Bucket>, baselines: map<Ref, Baseline>)
    ensures var w := Workflows(refs, rows, baselines);
      |w| == |refs| && forall i :: 0 <= i < |refs| ==> w[i] == StatisticsAt(refs[i], rows, baselines)
  {
    if refs != [] { WorkflowsAt(refs[1..], rows, baselines); }
  }

  method WorkflowRows(refs: seq<Ref>, byWorkflow: map<Ref, seq<Bucket>>, ghost rows: seq<Bucket>,
      baselines: map<Ref, Baseline>)
    returns (workflows: seq<Workflow>)
    requires Groups(byWorkflow, rows, RefOf)
    ensures workflows == Workflows(refs, rows, baselines)
  {
    workflows := [];
    for i := 0 to |refs|
      invariant |workflows| == i
      invariant forall j :: 0 <= j < i ==> workflows[j] == StatisticsAt(refs[j], rows, baselines)
    {
      var w := WorkflowStatistics(refs[i], RowsAt(byWorkflow, refs[i]), BaselineOf(baselines, refs[i]));
      workflows := workflows + [w];
    }
    WorkflowsAt(refs, rows, baselines);
  }

  function DayAt(day: Day, rows: seq<Bucket>, baselines: map<Ref, Baseline>, known: bool): Daily {
    DailyStatistics(day, Group(rows, DayOf, day), baselines, known)
  }

  lemma {:induction false} CalendarAt(days: seq<Day>, rows: seq<Bucket>, baselines: map<Ref, Baseline>, known: bool)
    ensures var c := Calendar(days, rows, baselines, known);
      |c| == |days| && forall i :: 0 <= i < |days| ==> c[i] == DayAt(days[i], rows, baselines, known)
  {
    if days != [] { CalendarAt(days[1..], rows, baselines, known); }
  }

  method MakeDay(day: Day, today: seq<Bucket>, baselines: map<Ref, Baseline>, known: bool) returns (d: Daily)
    ensures d == DailyStatistics(day, today, baselines, known)
  {
    var cost := CostOf(today, baselines);
    d := Daily(day, Sum(today, CountOf), Sum(today, VerifiedOf), if known then Some(cost) else None);
  }

  /** The loop over the days of the window. */
  method DailyRows(start: Day, days: nat, byDay: map<Day, seq<Bucket>>, ghost rows: seq<Bucket>,
      baselines: map<Ref, Baseline>, known: bool)
    returns (daily: seq<Daily>)
    requires Groups(byDay, rows, DayOf)
    ensures daily == Calendar(Days(start, days), rows, baselines, known)
  {
    daily := [];
    for i := 0 to days
      invariant |daily| == i && forall j :: 0 <= j < i ==> daily[j] == DayAt(start + j, rows, baselines, known)
    {
      var d := MakeDay(start + i, RowsAt(byDay, start + i), baselines, known);
      daily := daily + [d];
    }
    CalendarAt(Days(start, days), rows, baselines, known);
  }

  method BuildReport(buckets: seq<Bucket>, baselines: map<Ref, Baseline>, start: Day, days: nat) returns (r: Report)
    ensures r == MakeReport(buckets, baselines, start, days)
  {
    var byWorkflow, byDay := GroupRows(buckets);
    var rows := Group(buckets, PurposeOf, ForWorkflow);
    var workflows := WorkflowRows(Refs(rows), byWorkflow, rows, baselines);
    var modeled := Modeled(workflows);
    var known := modeled != [];
    var daily := DailyRows(start, days, byDay, rows, baselines, known);
    r := Report(
      Sum(workflows, RunsIn), Sum(workflows, TerminalIn), Sum(workflows, VerifiedIn), Sum(workflows, ErrorsIn),
      Sum(workflows, RunningIn), Sum(workflows, DurationIn),
      Sum(Group(buckets, PurposeOf, ForValidation), CountOf), Sum(Group(buckets, PurposeOf, ForUnknown), CountOf),
      Sum(modeled, TerminalIn),
      Known(known, Sum(modeled, ManualIn)), Known(known, Sum(modeled, OwlmaticIn)),
      Known(known, Sum(modeled, SetupIn)), Known(known, Sum(modeled, NetIn)),
      workflows, daily);
  }
}
