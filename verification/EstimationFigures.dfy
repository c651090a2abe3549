/** What the figures of an assessment are, read off the recorded tasks one by one
    (measurement/estimation.py:12-109). */
module EstimationFigures {
  import opened Prelude
  import opened Measurement
  import opened Ledger
  import opened Estimation

  predicate IsFor(t: Task, ref: Ref, purpose: Purpose) {
    t.workflowRef == Some(ref) && t.purpose == purpose
  }

  /** The tokens of all measured tasks of the workflow with this purpose. */
  function Charged(tasks: seq<Task>, ref: Ref, purpose: Purpose): nat {
    if tasks == [] then 0
    else
      var t := tasks[0];
      (if IsFor(t, ref, purpose) && t.complete && t.usage.Some?
       then t.usage.value.inputTokens + t.usage.value.outputTokens else 0)
      + Charged(tasks[1..], ref, purpose)
  }

  /** How many reuse tasks of the workflow there are, all of them or the measured ones. */
  function Tally(tasks: seq<Task>, ref: Ref, measured: bool): nat {
    if tasks == [] then 0
    else
      var t := tasks[0];
      (if IsFor(t, ref, Reuse) && (measured ==> t.complete && t.usage.Some?) then 1 else 0)
      + Tally(tasks[1..], ref, measured)
  }

  lemma {:induction false} PurposedFigures(tasks: seq<Task>, ref: Ref, purpose: Purpose)
    ensures var p := Purposed(tasks, ref, purpose);
      && SumOf(MeasuredOf(p)) == Charged(tasks, ref, purpose)
      && (purpose == Reuse ==> |p| == Tally(tasks, ref, false) && |MeasuredOf(p)| == Tally(tasks, ref, true))
  {
    if tasks != [] {
      PurposedFigures(tasks[1..], ref, purpose);
      var rest := Purposed(tasks[1..], ref, purpose);
      if IsFor(tasks[0], ref, purpose) {
        var p := [tasks[0]] + rest;
        assert p[1..] == rest && Purposed(tasks, ref, purpose) == p;
        if Measured(tasks[0]) {
          assert MeasuredOf(p) == [tasks[0]] + MeasuredOf(rest);
          assert MeasuredOf(p)[1..] == MeasuredOf(rest);
        } else {
          assert MeasuredOf(p) == [] + MeasuredOf(rest) == MeasuredOf(rest);
        }
      }
    }
  }

  lemma {:induction false} AllMeasured(tasks: seq<Task>)
    requires forall t :: t in tasks ==> Measured(t)
    ensures MeasuredOf(tasks) == tasks
  {
    if tasks != [] {
      assert tasks[0] in tasks && tasks == [tasks[0]] + tasks[1..];
      AllMeasured(tasks[1..]);
    }
  }

  /** The cost of a purpose is known exactly when it is declared complete and all its tasks are
      measured, and then it is what they used. */
  lemma CostIsCharged(tasks: seq<Task>, ref: Ref, purpose: Purpose, declared: bool)
    ensures Cost(tasks, ref, purpose, declared)
      == if declared && forall t :: t in tasks && IsFor(t, ref, purpose) ==> Measured(t)
         then Some(Charged(tasks, ref, purpose)) else None
  {
    PurposedFigures(tasks, ref, purpose);
    var p := Purposed(tasks, ref, purpose);
    if forall t :: t in p ==> Measured(t) { AllMeasured(p); }
  }

  /** The counts and the tokens of an assessment: every task of the workflow is counted under its
      purpose once, and its tokens are those it used. */
  lemma FiguresAreExact(ref: Ref, tasks: seq<Task>, baselines: seq<Task>, coverage: Coverage)
    ensures var a := Assess(ref, tasks, baselines, coverage);
      && a.observedTasks == Tally(tasks, ref, false) && a.measuredTasks == Tally(tasks, ref, true)
      && a.measuredTokens == (if Tally(tasks, ref, true) == 0 then None else Some(Charged(tasks, ref, Reuse)))
      && (a.creationTokens.Some? ==> a.creationTokens.value == Charged(tasks, ref, Creation))
      && (a.maintenanceTokens.Some? ==> a.maintenanceTokens.value == Charged(tasks, ref, Maintenance))
      && (a.netSavings.Some? ==>
            a.operationalSavings.Some? && a.netSavings.value
            == a.operationalSavings.value - Charged(tasks, ref, Creation) - Charged(tasks, ref, Maintenance))
  {
    PurposedFigures(tasks, ref, Reuse);
    CostIsCharged(tasks, ref, Creation, coverage.setupComplete);
    CostIsCharged(tasks, ref, Maintenance, coverage.maintenanceComplete);
    KnownExactlyWhen(ref, tasks, baselines, coverage);
  }

  // ----- quality and issues

  ghost predicate SomeUncomparable(baselines: seq<Task>, reuse: seq<Task>) {
    exists t :: t in reuse && !Comparable(baselines, t)
  }

  ghost predicate SomeUnexposed(baselines: seq<Task>, reuse: seq<Task>) {
    exists t :: t in reuse && Comparable(baselines, t) && !AllExposed(baselines, t)
  }

  lemma {:induction false} StepIssues(baselines: seq<Task>, c: Comparison, reuse: seq<Task>)
    ensures var r := Steps(baselines, c, reuse);
      && (forall i :: i in r.issues <==>
            || i in c.issues
            || (i == MissingMatch && SomeUncomparable(baselines, reuse))
            || (i == VisibleContextIncomplete && SomeUnexposed(baselines, reuse)))
    decreases |reuse|
  {
    if reuse != [] {
      StepIssues(baselines, Step(baselines, c, reuse[0]), reuse[1..]);
      assert forall t :: t in reuse <==> t == reuse[0] || t in reuse[1..];
    }
  }

  lemma {:induction false} MeasuredSize(tasks: seq<Task>)
    ensures |MeasuredOf(tasks)| <= |tasks|
    ensures |MeasuredOf(tasks)| == |tasks| <==> forall t :: t in tasks ==> Measured(t)
    ensures MeasuredOf(tasks) == [] <==> forall t :: t in tasks ==> !Measured(t)
  {
    if tasks != [] {
      MeasuredSize(tasks[1..]);
      assert forall t :: t in tasks <==> t == tasks[0] || t in tasks[1..];
    }
  }

  /** The quality is none without a measured task, preliminary when there are tasks and all are
      comparable, and else partial. */
  lemma QualityExactlyWhen(ref: Ref, tasks: seq<Task>, baselines: seq<Task>, coverage: Coverage)
    ensures var q := Assess(ref, tasks, baselines, coverage).quality; var reuse := Purposed(tasks, ref, Reuse);
      && (q == Unmeasured <==> forall t :: t in reuse ==> !Measured(t))
      && (q == Preliminary <==> reuse != [] && !SomeUncomparable(baselines, reuse))
  {
    var reuse := Purposed(tasks, ref, Reuse);
    StepsMean(baselines, Start(reuse), reuse);
    MeasuredSize(reuse);
    if reuse != [] { assert reuse[0] in reuse; }
  }

  function Raised(reuse: seq<Task>, creation: Option<nat>, maintenance: Option<nat>): set<Issue> {
    (if |MeasuredOf(reuse)| != |reuse| then {UsageIncomplete} else {})
    + (if creation.None? then {CreationUnknown} else {}) + (if maintenance.None? then {MaintenanceUnknown} else {})
    + {NoGuarantee}
  }

  lemma IssuesAre(ref: Ref, tasks: seq<Task>, baselines: seq<Task>, coverage: Coverage)
    ensures var a := Assess(ref, tasks, baselines, coverage); var reuse := Purposed(tasks, ref, Reuse);
      a.issues == Steps(baselines, Start(reuse), reuse).issues + Raised(reuse, a.creationTokens, a.maintenanceTokens)
  {
  }

  /** The reason for an issue. */
  ghost predicate Warranted(issue: Issue, baselines: seq<Task>, reuse: seq<Task>, creation: Option<nat>, maintenance: Option<nat>) {
    match issue
    case MissingMatch => SomeUncomparable(baselines, reuse)
    case VisibleContextIncomplete => SomeUnexposed(baselines, reuse)
    case UsageIncomplete => exists t :: t in reuse && !Measured(t)
    case CreationUnknown => creation.None?
    case MaintenanceUnknown => maintenance.None?
    case NoGuarantee => true
  }

  lemma RaisedIsWarranted(baselines: seq<Task>, reuse: seq<Task>, creation: Option<nat>, maintenance: Option<nat>, issue: Issue)
    ensures issue in Steps(baselines, Start(reuse), reuse).issues + Raised(reuse, creation, maintenance) <==>
      Warranted(issue, baselines, reuse, creation, maintenance)
  {
    StepIssues(baselines, Start(reuse), reuse);
    MeasuredSize(reuse);
  }

  /** Each issue is raised exactly for its reason, and one always. */
  lemma IssuesExactlyWhen(ref: Ref, tasks: seq<Task>, baselines: seq<Task>, coverage: Coverage, issue: Issue)
    ensures var a := Assess(ref, tasks, baselines, coverage);
      issue in a.issues <==>
        Warranted(issue, baselines, Purposed(tasks, ref, Reuse), a.creationTokens, a.maintenanceTokens)
  {
    var a := Assess(ref, tasks, baselines, coverage);
    IssuesAre(ref, tasks, baselines, coverage);
    RaisedIsWarranted(baselines, Purposed(tasks, ref, Reuse), a.creationTokens, a.maintenanceTokens, issue);
  }

  // ----- the baselines

  /** The baselines that match a measured reuse task. */
  ghost predicate IsUsed(baselines: seq<Task>, reuse: seq<Task>, id: TaskId) {
    exists b, t :: b in baselines && t in reuse && Measured(t) && Matches(b, t) && b.taskId == id
  }

  lemma ShareUses(baselines: seq<Task>, t: Task, id: TaskId)
    ensures Comparable(baselines, t) && id in IdsOf(Candidates(baselines, t)) <==> IsUsed(baselines, [t], id)
  {
    if Comparable(baselines, t) && id in IdsOf(Candidates(baselines, t)) {
      var b :| b in Candidates(baselines, t) && b.taskId == id;
      assert t in [t];
    }
    if b, u :| b in baselines && u in [t] && Measured(u) && Matches(b, u) && b.taskId == id {
      assert u == t && b in Candidates(baselines, t);
    }
  }

  lemma {:induction false} StepsUse(baselines: seq<Task>, c: Comparison, reuse: seq<Task>, id: TaskId)
    ensures id in Steps(baselines, c, reuse).used <==> id in c.used || IsUsed(baselines, reuse, id)
    decreases |reuse|
  {
    if reuse != [] {
      StepsUse(baselines, Step(baselines, c, reuse[0]), reuse[1..], id);
      ShareUses(baselines, reuse[0], id);
      UsedInTwo(baselines, reuse, id);
    }
  }

  lemma UsedInTwo(baselines: seq<Task>, reuse: seq<Task>, id: TaskId)
    requires reuse != []
    ensures IsUsed(baselines, reuse, id) <==> IsUsed(baselines, [reuse[0]], id) || IsUsed(baselines, reuse[1..], id)
  {
    assert forall t :: t in reuse <==> t in [reuse[0]] || t in reuse[1..];
  }

  /** A range is exact: both ends are reached, and nothing used lies outside. */
  ghost predicate IsRange(baselines: seq<Task>, used: set<TaskId>, low: Option<nat>, high: Option<nat>) {
    && low.Some? == high.Some?
    && (low.None? <==> forall b :: b in baselines && b.taskId in used ==> b.usage.None?)
    && (low.Some? ==>
          && (exists b :: b in baselines && b.taskId in used && b.usage.Some? && Total(b.usage.value) == low.value)
          && (exists b :: b in baselines && b.taskId in used && b.usage.Some? && Total(b.usage.value) == high.value)
          && forall b :: b in baselines && b.taskId in used && b.usage.Some? ==> low.value <= Total(b.usage.value) <= high.value)
  }

  /** The samples are the baselines that match a measured reuse task, each counted once, and the
      stated range is that of all recorded usages under their ids. */
  lemma BaselinesAreExact(ref: Ref, tasks: seq<Task>, baselines: seq<Task>, coverage: Coverage, used: set<TaskId>)
    requires forall id :: id in used <==> IsUsed(baselines, Purposed(tasks, ref, Reuse), id)
    ensures var a := Assess(ref, tasks, baselines, coverage);
      a.baselineSamples == |used| && IsRange(baselines, used, a.basis.baselineMin, a.basis.baselineMax)
  {
    var reuse := Purposed(tasks, ref, Reuse);
    var c := Steps(baselines, Start(reuse), reuse);
    forall id ensures id in c.used <==> id in used { StepsUse(baselines, Start(reuse), reuse, id); }
    assert c.used == used;
    RangeOf(baselines, used);
  }

  lemma RangeOf(baselines: seq<Task>, used: set<TaskId>)
    ensures var s := Selected(baselines, used);
      if s == [] then IsRange(baselines, used, None, None)
      else IsRange(baselines, used, Some(Least(s, TotalOf)), Some(Most(s, TotalOf)))
  {
    var s := Selected(baselines, used);
    if s != [] {
      var low :| low in s && TotalOf(low) == Least(s, TotalOf);
      var high :| high in s && TotalOf(high) == Most(s, TotalOf);
      assert low in baselines && high in baselines;
    }
    forall b | b in baselines && b.taskId in used && b.usage.Some? ensures b in s {}
  }

  /** What the tasks of the workflow ran on, and when one of it was last observed. */
  lemma BasisIsExact(ref: Ref, tasks: seq<Task>, baselines: seq<Task>, coverage: Coverage)
    ensures var b := Assess(ref, tasks, baselines, coverage).basis;
      && (forall host, model :: (host, model) in b.hostModels <==>
            model != "" && exists t :: t in tasks && IsFor(t, ref, Reuse) && t.host == host && t.model == Some(model))
      && (forall w :: w in b.workloads <==> exists t :: t in tasks && IsFor(t, ref, Reuse) && t.workload == w)
      && (b.latest.None? <==> forall t :: t in tasks ==> t.workflowRef != Some(ref))
      && (b.latest.Some? ==>
            && (exists t :: t in tasks && t.workflowRef == Some(ref) && t.observedAt == b.latest.value)
            && forall t :: t in tasks && t.workflowRef == Some(ref) ==> AtMost(t.observedAt, b.latest.value))
  {
    var related := Related(tasks, ref);
    if related != [] { assert related[0] in related; }
  }
}
