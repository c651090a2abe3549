/** The estimate of saved tokens (measurement/estimation.py:6-109): recorded manual tasks are
    compared with reused workflows, always with the cheapest match. */
module Estimation {
  import opened Prelude
  import opened Measurement
  import opened Ledger

  datatype Issue = MissingMatch | VisibleContextIncomplete | UsageIncomplete | CreationUnknown | MaintenanceUnknown
    | NoGuarantee

  datatype Quality = Unmeasured | Partial | Preliminary

  datatype Assessment = Assessment(
    observedTasks: nat,
    measuredTasks: nat,
    baselineSamples: nat,
    measuredTokens: Option<nat>,
    operationalSavings: Option<int>,
    netSavings: Option<int>,
    contextTokens: Option<int>,
    contextBytes: Option<int>,
    creationTokens: Option<nat>,
    maintenanceTokens: Option<nat>,
    quality: Quality,
    issues: set<Issue>,
    basis: Basis)

  /** What the figures rest on: the range of the baselines used, where and on what the tasks ran,
      and when the latest of the workflow was observed. */
  datatype Basis = Basis(
    baselineMin: Option<nat>,
    baselineMax: Option<nat>,
    hostModels: set<(Host, string)>,
    workloads: set<string>,
    latest: Option<string>)

  // ----- matching

  predicate Matches(b: Task, t: Task) {
    && b.purpose == Manual && b.complete && b.verified && HasModel(b)
    && b.host == t.host && b.model == t.model && b.workload == t.workload && b.usage.Some?
  }

  function Candidates(baselines: seq<Task>, t: Task): (c: seq<Task>)
    ensures forall b :: b in c <==> b in baselines && Matches(b, t)
  {
    if baselines == [] then []
    else
      var rest := Candidates(baselines[1..], t);
      assert forall b :: b in baselines <==> b == baselines[0] || b in baselines[1..];
      if Matches(baselines[0], t) then [baselines[0]] + rest else rest
  }

  predicate Measured(t: Task) {
    t.complete && t.usage.Some?
  }

  predicate Comparable(baselines: seq<Task>, t: Task) {
    Measured(t) && |Candidates(baselines, t)| > 0
  }

  function TotalOf(t: Task): nat {
    if t.usage.Some? then Total(t.usage.value) else 0
  }

  function VisibleOf(t: Task): nat {
    t.exposure.visibleBytes
  }

  function ReferenceOf(t: Task): nat {
    if t.exposure.referenceTokens.Some? then t.exposure.referenceTokens.value else 0
  }

  function Least(tasks: seq<Task>, measure: Task -> nat): (m: nat)
    requires tasks != []
    ensures exists b :: b in tasks && measure(b) == m
    ensures forall b :: b in tasks ==> m <= measure(b)
  {
    if |tasks| == 1 then assert tasks[0] in tasks; measure(tasks[0])
    else
      var rest := Least(tasks[1..], measure);
      assert forall b :: b in tasks <==> b == tasks[0] || b in tasks[1..];
      if measure(tasks[0]) < rest then assert tasks[0] in tasks; measure(tasks[0]) else rest
  }

  /** What a task used is always charged; it is credited with a baseline only if its outcome was
      verified. */
  function Gain(baselines: seq<Task>, t: Task, measure: Task -> nat): int
    requires |Candidates(baselines, t)| > 0
  {
    (if t.verified then Least(Candidates(baselines, t), measure) else 0) - measure(t)
  }

  predicate AllExposed(baselines: seq<Task>, t: Task) {
    t.exposure.complete && forall b :: b in Candidates(baselines, t) ==> b.exposure.complete
  }

  predicate AllReferenced(baselines: seq<Task>, t: Task) {
    t.exposure.referenceTokens.Some? && forall b :: b in Candidates(baselines, t) ==>
      b.exposure.counter == t.exposure.counter && b.exposure.referenceTokens.Some?
  }

  // ----- the comparison of all reuse tasks

  datatype Comparison = Comparison(operational: int, bytes: int, tokens: int, comparable: bool, contextKnown: bool,
    referenceKnown: bool, used: set<TaskId>, issues: set<Issue>)

  function Start(reuse: seq<Task>): Comparison {
    Comparison(0, 0, 0, reuse != [], reuse != [], reuse != [], {}, {})
  }

  function IdsOf(tasks: seq<Task>): set<TaskId> {
    set t | t in tasks :: t.taskId
  }

  /** What one task adds to the comparison. */
  datatype Share = Unmatched
    | Matched(gain: int, bytes: int, tokens: int, exposed: bool, referenced: bool, ids: set<TaskId>)

  function ShareOf(baselines: seq<Task>, t: Task): Share {
    if !Comparable(baselines, t) then Unmatched
    else Matched(Gain(baselines, t, TotalOf), Gain(baselines, t, VisibleOf), Gain(baselines, t, ReferenceOf),
                 AllExposed(baselines, t), AllReferenced(baselines, t), IdsOf(Candidates(baselines, t)))
  }

  function Add(c: Comparison, s: Share): Comparison {
    match s
    case Unmatched =>
      c.(comparable := false, contextKnown := false, referenceKnown := false, issues := c.issues + {MissingMatch})
    case Matched(gain, bytes, tokens, exposed, referenced, ids) =>
      Comparison(c.operational + gain, c.bytes + bytes, if referenced then c.tokens + tokens else c.tokens,
                 c.comparable, c.contextKnown && exposed, c.referenceKnown && exposed && referenced, c.used + ids,
                 if exposed then c.issues else c.issues + {VisibleContextIncomplete})
  }

  function Step(baselines: seq<Task>, c: Comparison, t: Task): Comparison {
    Add(c, ShareOf(baselines, t))
  }

  function Steps(baselines: seq<Task>, c: Comparison, reuse: seq<Task>): Comparison
    decreases |reuse|
  {
    if reuse == [] then c else Steps(baselines, Step(baselines, c, reuse[0]), reuse[1..])
  }

  // ----- what the figures rest on

  /** The baselines used, those that have a usage. */
  function Selected(baselines: seq<Task>, used: set<TaskId>): (r: seq<Task>)
    ensures forall b :: b in r <==> b in baselines && b.taskId in used && b.usage.Some?
  {
    if baselines == [] then []
    else
      var rest := Selected(baselines[1..], used);
      assert forall b :: b in baselines <==> b == baselines[0] || b in baselines[1..];
      if baselines[0].taskId in used && baselines[0].usage.Some? then [baselines[0]] + rest else rest
  }

  function Most(tasks: seq<Task>, measure: Task -> nat): (m: nat)
    requires tasks != []
    ensures exists b :: b in tasks && measure(b) == m
    ensures forall b :: b in tasks ==> measure(b) <= m
  {
    if |tasks| == 1 then assert tasks[0] in tasks; measure(tasks[0])
    else
      var rest := Most(tasks[1..], measure);
      assert forall b :: b in tasks <==> b == tasks[0] || b in tasks[1..];
      if measure(tasks[0]) > rest then assert tasks[0] in tasks; measure(tasks[0]) else rest
  }

  /** The order of texts, character by character. */
  predicate AtMost(a: string, b: string) {
    a == "" || (b != "" && (a[0] < b[0] || (a[0] == b[0] && AtMost(a[1..], b[1..]))))
  }

  function Related(tasks: seq<Task>, ref: Ref): (r: seq<Task>)
    ensures forall t :: t in r <==> t in tasks && t.workflowRef == Some(ref)
  {
    if tasks == [] then []
    else
      var rest := Related(tasks[1..], ref);
      assert forall t :: t in tasks <==> t == tasks[0] || t in tasks[1..];
      if tasks[0].workflowRef == Some(ref) then [tasks[0]] + rest else rest
  }

  lemma {:induction false} AtMostIsTotal(a: string, b: string)
    ensures AtMost(a, b) || AtMost(b, a)
    decreases |a|
  {
    if a != "" && b != "" { AtMostIsTotal(a[1..], b[1..]); }
  }

  lemma {:induction false} AtMostIsTransitive(a: string, b: string, c: string)
    requires AtMost(a, b) && AtMost(b, c)
    ensures AtMost(a, c)
    decreases |a|
  {
    if a != "" && a[0] == b[0] == c[0] { AtMostIsTransitive(a[1..], b[1..], c[1..]); }
  }

  lemma {:induction false} AtMostBoth(a: string, b: string)
    requires AtMost(a, b) && AtMost(b, a)
    ensures a == b
    decreases |a|
  {
    if a != "" {
      AtMostBoth(a[1..], b[1..]);
      assert a == [a[0]] + a[1..] && b == [b[0]] + b[1..];
    }
  }

  predicate IsLatest(tasks: seq<Task>, m: string) {
    (exists t :: t in tasks && t.observedAt == m) && forall t :: t in tasks ==> AtMost(t.observedAt, m)
  }

  lemma LatestOfTwo(tasks: seq<Task>, rest: string)
    requires |tasks| > 1 && IsLatest(tasks[1..], rest)
    ensures IsLatest(tasks, if AtMost(rest, tasks[0].observedAt) then tasks[0].observedAt else rest)
  {
    var first := tasks[0].observedAt;
    AtMostIsTotal(first, rest);
    AtMostIsTotal(first, first);
    assert forall t :: t in tasks <==> t == tasks[0] || t in tasks[1..];
    if AtMost(rest, first) {
      forall t | t in tasks ensures AtMost(t.observedAt, first) {
        if t in tasks[1..] { AtMostIsTransitive(t.observedAt, rest, first); }
      }
      assert tasks[0] in tasks;
    }
  }

  /** The latest time of observation. */
  function Latest(tasks: seq<Task>): (m: Option<string>)
    ensures m.Some? <==> tasks != []
    ensures m.Some? ==> IsLatest(tasks, m.value)
  {
    if tasks == [] then None
    else if |tasks| == 1 then
      AtMostIsTotal(tasks[0].observedAt, tasks[0].observedAt);
      assert tasks[0] in tasks;
      Some(tasks[0].observedAt)
    else
      var rest := Latest(tasks[1..]).value;
      LatestOfTwo(tasks, rest);
      Some(if AtMost(rest, tasks[0].observedAt) then tasks[0].observedAt else rest)
  }

  function BasisOf(tasks: seq<Task>, ref: Ref, reuse: seq<Task>, baselines: seq<Task>, used: set<TaskId>): Basis {
    var selected := Selected(baselines, used);
    Basis(
      if selected == [] then None else Some(Least(selected, TotalOf)),
      if selected == [] then None else Some(Most(selected, TotalOf)),
      set t | t in reuse && HasModel(t) :: (t.host, t.model.value),
      set t | t in reuse :: t.workload,
      Latest(Related(tasks, ref)))
  }

  // ----- the assessment

  function Purposed(tasks: seq<Task>, ref: Ref, purpose: Purpose): (r: seq<Task>)
    ensures forall t :: t in r <==> t in tasks && t.workflowRef == Some(ref) && t.purpose == purpose
  {
    if tasks == [] then []
    else
      var rest := Purposed(tasks[1..], ref, purpose);
      assert forall t :: t in tasks <==> t == tasks[0] || t in tasks[1..];
      if tasks[0].workflowRef == Some(ref) && tasks[0].purpose == purpose then [tasks[0]] + rest else rest
  }

  function MeasuredOf(tasks: seq<Task>): seq<Task> {
    if tasks == [] then []
    else (if Measured(tasks[0]) then [tasks[0]] else []) + MeasuredOf(tasks[1..])
  }

  function SumOf(tasks: seq<Task>): nat {
    if tasks == [] then 0 else TotalOf(tasks[0]) + SumOf(tasks[1..])
  }

  /** The declared-complete cost of a purpose, unless a task of it is unmeasured. */
  function Cost(tasks: seq<Task>, ref: Ref, purpose: Purpose, declared: bool): Option<nat> {
    var observations := Purposed(tasks, ref, purpose);
    if declared && (forall t :: t in observations ==> Measured(t)) then Some(SumOf(observations)) else None
  }

  function Net(operational: Option<int>, creation: Option<nat>, maintenance: Option<nat>): Option<int> {
    if operational.Some? && creation.Some? && maintenance.Some?
    then Some(operational.value - creation.value - maintenance.value)
    else None
  }

  function Assess(ref: Ref, tasks: seq<Task>, baselines: seq<Task>, coverage: Coverage): Assessment {
    var reuse := Purposed(tasks, ref, Reuse);
    var measured := MeasuredOf(reuse);
    var c := Steps(baselines, Start(reuse), reuse);
    var creation := Cost(tasks, ref, Creation, coverage.setupComplete);
    var maintenance := Cost(tasks, ref, Maintenance, coverage.maintenanceComplete);
    var operational := if c.comparable then Some(c.operational) else None;
    Assessment(
      |reuse|, |measured|, |c.used|,
      if measured != [] then Some(SumOf(measured)) else None,
      operational,
      Net(operational, creation, maintenance),
      if c.referenceKnown then Some(c.tokens) else None,
      if c.contextKnown then Some(c.bytes) else None,
      creation, maintenance,
      if measured == [] then Unmeasured else if c.comparable then Preliminary else Partial,
      c.issues + (if |measured| != |reuse| then {UsageIncomplete} else {})
      + (if creation.None? then {CreationUnknown} else {}) + (if maintenance.None? then {MaintenanceUnknown} else {})
      + {NoGuarantee},
      BasisOf(tasks, ref, reuse, baselines, c.used))
  }

  // ----- what is known, and what it is

  /** The sum over all tasks of what each saved. */
  function SumGain(baselines: seq<Task>, reuse: seq<Task>, measure: Task -> nat): int
    requires forall t :: t in reuse ==> Comparable(baselines, t)
  {
    if reuse == [] then 0
    else
      assert reuse[0] in reuse && Comparable(baselines, reuse[0]);
      Gain(baselines, reuse[0], measure) + SumGain(baselines, reuse[1..], measure)
  }

  lemma {:induction false} StepsMean(baselines: seq<Task>, c: Comparison, reuse: seq<Task>)
    ensures var r := Steps(baselines, c, reuse);
      && (r.comparable <==> c.comparable && forall t :: t in reuse ==> Comparable(baselines, t))
      && (r.contextKnown <==>
        c.contextKnown && forall t :: t in reuse ==> Comparable(baselines, t) && AllExposed(baselines, t))
      && (r.referenceKnown <==> c.referenceKnown && forall t :: t in reuse ==>
          Comparable(baselines, t) && AllExposed(baselines, t) && AllReferenced(baselines, t))
    decreases |reuse|
  {
    if reuse != [] {
      StepsMean(baselines, Step(baselines, c, reuse[0]), reuse[1..]);
      assert forall t :: t in reuse <==> t == reuse[0] || t in reuse[1..];
    }
  }

  lemma {:induction false} StepsSum(baselines: seq<Task>, c: Comparison, reuse: seq<Task>)
    requires forall t :: t in reuse ==> Comparable(baselines, t)
    ensures var r := Steps(baselines, c, reuse);
      && r.operational == c.operational + SumGain(baselines, reuse, TotalOf)
      && r.bytes == c.bytes + SumGain(baselines, reuse, VisibleOf)
      && ((forall t :: t in reuse ==> AllReferenced(baselines, t)) ==>
        r.tokens == c.tokens + SumGain(baselines, reuse, ReferenceOf))
    decreases |reuse|
  {
    if reuse != [] {
      assert reuse[0] in reuse;
      assert forall t :: t in reuse <==> t == reuse[0] || t in reuse[1..];
      StepsSum(baselines, Step(baselines, c, reuse[0]), reuse[1..]);
    }
  }

  /** The operational saving is known exactly when there is a reuse task and each is measured
      and has a matching baseline; the two context figures need more of the same tasks; the net
      saving needs the cost of creation and maintenance, declared and measured. */
  lemma KnownExactlyWhen(ref: Ref, tasks: seq<Task>, baselines: seq<Task>, coverage: Coverage)
    ensures var a := Assess(ref, tasks, baselines, coverage); var reuse := Purposed(tasks, ref, Reuse);
      && (a.operationalSavings.Some? <==> reuse != [] && forall t :: t in reuse ==> Comparable(baselines, t))
      && (a.contextBytes.Some? <==> reuse != [] && forall t :: t in reuse ==>
          Comparable(baselines, t) && AllExposed(baselines, t))
      && (a.contextTokens.Some? <==> reuse != [] && forall t :: t in reuse ==>
          Comparable(baselines, t) && AllExposed(baselines, t) && AllReferenced(baselines, t))
      && (a.operationalSavings.Some? ==> a.operationalSavings == Some(SumGain(baselines, reuse, TotalOf)))
      && (a.contextBytes.Some? ==> a.contextBytes == Some(SumGain(baselines, reuse, VisibleOf)))
      && (a.contextTokens.Some? ==> a.contextTokens == Some(SumGain(baselines, reuse, ReferenceOf)))
      && (a.creationTokens.Some? <==> coverage.setupComplete && forall t :: t in Purposed(tasks, ref, Creation) ==> Measured(t))
      && (a.maintenanceTokens.Some? <==>
        coverage.maintenanceComplete && forall t :: t in Purposed(tasks, ref, Maintenance) ==> Measured(t))
      && (a.netSavings.Some? <==>
        a.operationalSavings.Some? && a.creationTokens.Some? && a.maintenanceTokens.Some?)
      && (a.netSavings.Some? ==>
        a.netSavings.value == a.operationalSavings.value - a.creationTokens.value - a.maintenanceTokens.value)
  {
    var reuse := Purposed(tasks, ref, Reuse);
    StepsMean(baselines, Start(reuse), reuse);
    if forall t :: t in reuse ==> Comparable(baselines, t) {
      StepsSum(baselines, Start(reuse), reuse);
    }
  }

  // ----- a conservative minimum

  /** One baseline for each verified reuse task. */
  ghost predicate Assigns(baselines: seq<Task>, reuse: seq<Task>, chosen: map<Task, Task>) {
    forall t :: t in reuse ==> t in chosen && chosen[t] in baselines && Matches(chosen[t], t)
  }

  /** What the tasks would have saved against the chosen baselines. */
  function SumAgainst(reuse: seq<Task>, chosen: map<Task, Task>, measure: Task -> nat): int
    requires forall t :: t in reuse ==> t in chosen
  {
    if reuse == [] then 0
    else
      assert reuse[0] in reuse;
      (if reuse[0].verified then measure(chosen[reuse[0]]) else 0) - measure(reuse[0])
      + SumAgainst(reuse[1..], chosen, measure)
  }

  lemma {:induction false} NoChoiceIsLower(baselines: seq<Task>, reuse: seq<Task>, chosen: map<Task, Task>, measure: Task -> nat)
    requires (forall t :: t in reuse ==> Comparable(baselines, t)) && Assigns(baselines, reuse, chosen)
    ensures SumGain(baselines, reuse, measure) <= SumAgainst(reuse, chosen, measure)
  {
    if reuse != [] {
      assert reuse[0] in reuse && chosen[reuse[0]] in Candidates(baselines, reuse[0]);
      NoChoiceIsLower(baselines, reuse[1..], chosen, measure);
    }
  }

  predicate IsCheapest(baselines: seq<Task>, t: Task, b: Task, measure: Task -> nat) {
    |Candidates(baselines, t)| > 0 && measure(b) == Least(Candidates(baselines, t), measure)
  }

  ghost function Cheapest(baselines: seq<Task>, t: Task, measure: Task -> nat): (b: Task)
    requires |Candidates(baselines, t)| > 0
    ensures b in baselines && Matches(b, t) && IsCheapest(baselines, t, b, measure)
  {
    var c, m := Candidates(baselines, t), Least(Candidates(baselines, t), measure);
    var b :| b in c && measure(b) == m;
    b
  }

  lemma {:induction false} CheapestReaches(baselines: seq<Task>, reuse: seq<Task>, chosen: map<Task, Task>, measure: Task -> nat)
    requires forall t :: t in reuse ==> Comparable(baselines, t) && t in chosen
    requires forall t :: t in reuse ==> IsCheapest(baselines, t, chosen[t], measure)
    ensures SumGain(baselines, reuse, measure) == SumAgainst(reuse, chosen, measure)
  {
    if reuse != [] {
      assert reuse[0] in reuse;
      CheapestReaches(baselines, reuse[1..], chosen, measure);
    }
  }

  /** A known saving is the least that any choice of matching baselines gives, and some choice
      gives it. */
  lemma SavingIsMinimum(ref: Ref, tasks: seq<Task>, baselines: seq<Task>, coverage: Coverage)
    returns (cheapest: map<Task, Task>)
    requires Assess(ref, tasks, baselines, coverage).operationalSavings.Some?
    ensures var saving := Assess(ref, tasks, baselines, coverage).operationalSavings.value;
      var reuse := Purposed(tasks, ref, Reuse);
      && (forall chosen :: Assigns(baselines, reuse, chosen) ==> saving <= SumAgainst(reuse, chosen, TotalOf))
      && Assigns(baselines, reuse, cheapest) && saving == SumAgainst(reuse, cheapest, TotalOf)
  {
    KnownExactlyWhen(ref, tasks, baselines, coverage);
    var reuse := Purposed(tasks, ref, Reuse);
    forall chosen | Assigns(baselines, reuse, chosen)
      ensures SumGain(baselines, reuse, TotalOf) <= SumAgainst(reuse, chosen, TotalOf)
    {
      NoChoiceIsLower(baselines, reuse, chosen, TotalOf);
    }
    cheapest := map t | t in reuse :: Cheapest(baselines, t, TotalOf);
    CheapestReaches(baselines, reuse, cheapest, TotalOf);
  }

  lemma {:induction false} UsedGrows(baselines: seq<Task>, c: Comparison, reuse: seq<Task>)
    ensures c.used <= Steps(baselines, c, reuse).used
    ensures forall t :: t in reuse && Comparable(baselines, t) ==>
      IdsOf(Candidates(baselines, t)) <= Steps(baselines, c, reuse).used
    decreases |reuse|
  {
    if reuse != [] {
      UsedGrows(baselines, Step(baselines, c, reuse[0]), reuse[1..]);
      assert forall t :: t in reuse <==> t == reuse[0] || t in reuse[1..];
    }
  }

  /** What any comparable task is credited with lies within the stated range of the baselines. */
  lemma CreditIsInRange(ref: Ref, tasks: seq<Task>, baselines: seq<Task>, coverage: Coverage, t: Task)
    requires t in Purposed(tasks, ref, Reuse) && Comparable(baselines, t)
    ensures var b := Assess(ref, tasks, baselines, coverage).basis;
      && b.baselineMin.Some? && b.baselineMax.Some?
      && b.baselineMin.value <= Least(Candidates(baselines, t), TotalOf) <= b.baselineMax.value
  {
    var reuse := Purposed(tasks, ref, Reuse);
    var c := Cheapest(baselines, t, TotalOf);
    UsedGrows(baselines, Start(reuse), reuse);
    assert c in Candidates(baselines, t) && c.taskId in IdsOf(Candidates(baselines, t));
    assert c in Selected(baselines, Steps(baselines, Start(reuse), reuse).used);
  }

  // ----- more baselines never raise it

  ghost predicate Extends(more: seq<Task>, fewer: seq<Task>) {
    forall b :: b in fewer ==> b in more
  }

  lemma MoreGainsNoMore(fewer: seq<Task>, more: seq<Task>, t: Task, measure: Task -> nat)
    requires Extends(more, fewer) && Comparable(fewer, t)
    ensures Comparable(more, t) && Gain(more, t, measure) <= Gain(fewer, t, measure)
  {
    var b := Cheapest(fewer, t, measure);
    assert b in Candidates(more, t);
  }

  lemma {:induction false} MoreSumsNoMore(fewer: seq<Task>, more: seq<Task>, reuse: seq<Task>, measure: Task -> nat)
    requires Extends(more, fewer) && (forall t :: t in reuse ==> Comparable(fewer, t) && Comparable(more, t))
    ensures SumGain(more, reuse, measure) <= SumGain(fewer, reuse, measure)
  {
    if reuse != [] {
      assert reuse[0] in reuse;
      MoreGainsNoMore(fewer, more, reuse[0], measure);
      MoreSumsNoMore(fewer, more, reuse[1..], measure);
    }
  }

  /** Linking further baselines never makes a known saving unknown and never raises it. */
  lemma MoreBaselinesNeverRaise(ref: Ref, tasks: seq<Task>, fewer: seq<Task>, more: seq<Task>, coverage: Coverage)
    requires Extends(more, fewer)
    ensures var a, b := Assess(ref, tasks, fewer, coverage), Assess(ref, tasks, more, coverage);
      && (a.operationalSavings.Some? ==>
        b.operationalSavings.Some? && b.operationalSavings.value <= a.operationalSavings.value)
      && (a.netSavings.Some? ==> b.netSavings.Some? && b.netSavings.value <= a.netSavings.value)
  {
    KnownExactlyWhen(ref, tasks, fewer, coverage);
    KnownExactlyWhen(ref, tasks, more, coverage);
    var reuse := Purposed(tasks, ref, Reuse);
    if reuse != [] && forall t :: t in reuse ==> Comparable(fewer, t) {
      forall t | t in reuse ensures Comparable(more, t) { MoreGainsNoMore(fewer, more, t, TotalOf); }
      MoreSumsNoMore(fewer, more, reuse, TotalOf);
    }
  }

  // ----- order does not matter

  lemma SameLeast(a: seq<Task>, b: seq<Task>, measure: Task -> nat)
    requires a != [] && b != [] && Extends(a, b) && Extends(b, a)
    ensures Least(a, measure) == Least(b, measure)
  {
  }

  lemma SameGain(a: seq<Task>, b: seq<Task>, t: Task, measure: Task -> nat)
    requires Extends(a, b) && Extends(b, a) && |Candidates(a, t)| > 0
    ensures |Candidates(b, t)| > 0 && Gain(a, t, measure) == Gain(b, t, measure)
  {
    var ca, cb := Candidates(a, t), Candidates(b, t);
    assert ca[0] in ca && ca[0] in cb;
    SameLeast(ca, cb, measure);
  }

  lemma SameView(a: seq<Task>, b: seq<Task>, t: Task)
    requires Extends(a, b) && Extends(b, a)
    ensures Comparable(a, t) == Comparable(b, t)
    ensures AllExposed(a, t) == AllExposed(b, t) && AllReferenced(a, t) == AllReferenced(b, t)
    ensures IdsOf(Candidates(a, t)) == IdsOf(Candidates(b, t))
  {
    var ca, cb := Candidates(a, t), Candidates(b, t);
    assert Extends(ca, cb) && Extends(cb, ca);
    assert |ca| > 0 ==> ca[0] in cb;
    assert |cb| > 0 ==> cb[0] in ca;
  }

  /** A task's share depends on the set of the baselines. */
  lemma SameShare(a: seq<Task>, b: seq<Task>, t: Task)
    requires Extends(a, b) && Extends(b, a)
    ensures ShareOf(a, t) == ShareOf(b, t)
  {
    SameView(a, b, t);
    if Comparable(a, t) {
      SameGain(a, b, t, TotalOf);
      SameGain(a, b, t, VisibleOf);
      SameGain(a, b, t, ReferenceOf);
    }
  }

  lemma {:induction false} SameSteps(a: seq<Task>, b: seq<Task>, c: Comparison, reuse: seq<Task>)
    requires Extends(a, b) && Extends(b, a)
    ensures Steps(a, c, reuse) == Steps(b, c, reuse)
    decreases |reuse|
  {
    if reuse != [] {
      SameShare(a, b, reuse[0]);
      SameSteps(a, b, Step(a, c, reuse[0]), reuse[1..]);
    }
  }

  lemma SharesCommute(c: Comparison, s: Share, u: Share)
    ensures Add(Add(c, s), u) == Add(Add(c, u), s)
  {
    var a, b := Add(Add(c, s), u), Add(Add(c, u), s);
    assert a.used == b.used;
    assert a.issues == b.issues;
  }

  /** A task may be looked at first. */
  lemma {:induction false} StepsPull(baselines: seq<Task>, c: Comparison, reuse: seq<Task>, i: nat)
    requires i < |reuse|
    ensures Steps(baselines, c, reuse) == Steps(baselines, Step(baselines, c, reuse[i]), Without(reuse, i))
    decreases |reuse|
  {
    if i == 0 {
      assert Without(reuse, 0) == reuse[1..];
    } else {
      var head, tail := reuse[0], reuse[1..];
      StepsPull(baselines, Step(baselines, c, head), tail, i - 1);
      SharesCommute(c, ShareOf(baselines, head), ShareOf(baselines, reuse[i]));
      var rest := Without(reuse, i);
      assert rest[0] == head && rest[1..] == Without(tail, i - 1);
    }
  }

  function Without(tasks: seq<Task>, i: nat): seq<Task>
    requires i < |tasks|
  {
    tasks[..i] + tasks[i + 1..]
  }

  lemma Removed(tasks: seq<Task>, i: nat)
    requires i < |tasks|
    ensures multiset(Without(tasks, i)) == multiset(tasks) - multiset{tasks[i]}
  {
    assert tasks == tasks[..i] + [tasks[i]] + tasks[i + 1..];
  }

  /** The first task of a sequence, found in a reordering of it. */
  lemma FirstFound(a: seq<Task>, b: seq<Task>) returns (i: nat)
    requires multiset(a) == multiset(b) && a != []
    ensures i < |b| && b[i] == a[0] && multiset(a[1..]) == multiset(Without(b, i))
  {
    assert a[0] in multiset(b);
    i :| 0 <= i < |b| && b[i] == a[0];
    Removed(b, i);
    Removed(a, 0);
    assert Without(a, 0) == a[1..];
  }

  lemma SameLength(a: seq<Task>, b: seq<Task>)
    requires multiset(a) == multiset(b)
    ensures |a| == |b| && forall t :: t in a <==> t in b
  {
    assert |a| == |multiset(a)| && |b| == |multiset(b)|;
    assert forall t :: t in a <==> t in multiset(a);
    assert forall t :: t in b <==> t in multiset(b);
  }

  lemma {:induction false} StepsPermute(baselines: seq<Task>, c: Comparison, a: seq<Task>, b: seq<Task>)
    requires multiset(a) == multiset(b)
    ensures Steps(baselines, c, a) == Steps(baselines, c, b)
    decreases |a|
  {
    SameLength(a, b);
    if a != [] {
      var i := FirstFound(a, b);
      StepsPull(baselines, c, b, i);
      StepsPermute(baselines, Step(baselines, c, a[0]), a[1..], Without(b, i));
    }
  }

  lemma {:induction false} PurposedCounts(tasks: seq<Task>, ref: Ref, purpose: Purpose, t: Task)
    ensures multiset(Purposed(tasks, ref, purpose))[t]
      == if t.workflowRef == Some(ref) && t.purpose == purpose then multiset(tasks)[t] else 0
  {
    if tasks != [] {
      PurposedCounts(tasks[1..], ref, purpose, t);
      assert tasks == [tasks[0]] + tasks[1..];
    }
  }

  lemma {:induction false} MeasuredCounts(tasks: seq<Task>, t: Task)
    ensures multiset(MeasuredOf(tasks))[t] == if Measured(t) then multiset(tasks)[t] else 0
  {
    if tasks != [] {
      MeasuredCounts(tasks[1..], t);
      assert tasks == [tasks[0]] + tasks[1..];
    }
  }

  lemma {:induction false} SumPull(tasks: seq<Task>, i: nat)
    requires i < |tasks|
    ensures SumOf(tasks) == TotalOf(tasks[i]) + SumOf(Without(tasks, i))
  {
    var rest := Without(tasks, i);
    if i == 0 {
      assert rest == tasks[1..];
    } else {
      SumPull(tasks[1..], i - 1);
      assert rest[0] == tasks[0] && rest[1..] == Without(tasks[1..], i - 1);
    }
  }

  lemma {:induction false} SumPermutes(a: seq<Task>, b: seq<Task>)
    requires multiset(a) == multiset(b)
    ensures SumOf(a) == SumOf(b)
    decreases |a|
  {
    SameLength(a, b);
    if a != [] {
      var i := FirstFound(a, b);
      SumPull(b, i);
      SumPermutes(a[1..], Without(b, i));
    }
  }

  lemma SamePurposed(a: seq<Task>, b: seq<Task>, ref: Ref, purpose: Purpose)
    requires multiset(a) == multiset(b)
    ensures multiset(Purposed(a, ref, purpose)) == multiset(Purposed(b, ref, purpose))
  {
    var pa, pb := Purposed(a, ref, purpose), Purposed(b, ref, purpose);
    forall t ensures multiset(pa)[t] == multiset(pb)[t] {
      PurposedCounts(a, ref, purpose, t);
      PurposedCounts(b, ref, purpose, t);
    }
  }

  lemma SameCost(a: seq<Task>, b: seq<Task>, ref: Ref, purpose: Purpose, declared: bool)
    requires multiset(a) == multiset(b)
    ensures Cost(a, ref, purpose, declared) == Cost(b, ref, purpose, declared)
  {
    var pa, pb := Purposed(a, ref, purpose), Purposed(b, ref, purpose);
    SamePurposed(a, b, ref, purpose);
    SameLength(pa, pb);
    SumPermutes(pa, pb);
  }

  lemma SameMeasured(a: seq<Task>, b: seq<Task>)
    requires multiset(a) == multiset(b)
    ensures |MeasuredOf(a)| == |MeasuredOf(b)| && SumOf(MeasuredOf(a)) == SumOf(MeasuredOf(b))
  {
    var ma, mb := MeasuredOf(a), MeasuredOf(b);
    forall t ensures multiset(ma)[t] == multiset(mb)[t] {
      MeasuredCounts(a, t);
      MeasuredCounts(b, t);
    }
    assert multiset(ma) == multiset(mb);
    SameLength(ma, mb);
    SumPermutes(ma, mb);
  }

  lemma SameMost(a: seq<Task>, b: seq<Task>, measure: Task -> nat)
    requires a != [] && b != [] && Extends(a, b) && Extends(b, a)
    ensures Most(a, measure) == Most(b, measure)
  {
  }

  lemma SameLatest(a: seq<Task>, b: seq<Task>)
    requires Extends(a, b) && Extends(b, a)
    ensures Latest(a) == Latest(b)
  {
    assert a != [] ==> a[0] in b;
    assert b != [] ==> b[0] in a;
    if a != [] { AtMostBoth(Latest(a).value, Latest(b).value); }
  }

  lemma SameRange(a: seq<Task>, b: seq<Task>, used: set<TaskId>)
    requires Extends(a, b) && Extends(b, a)
    ensures var sa, sb := Selected(a, used), Selected(b, used);
      (sa == [] <==> sb == []) && (sa != [] ==> Least(sa, TotalOf) == Least(sb, TotalOf) && Most(sa, TotalOf) == Most(sb, TotalOf))
  {
    var sa, sb := Selected(a, used), Selected(b, used);
    assert Extends(sa, sb) && Extends(sb, sa);
    assert sa != [] ==> sa[0] in sb;
    assert sb != [] ==> sb[0] in sa;
    if sa != [] {
      SameLeast(sa, sb, TotalOf);
      SameMost(sa, sb, TotalOf);
    }
  }

  lemma SameBasis(ref: Ref, a: seq<Task>, b: seq<Task>, ra: seq<Task>, rb: seq<Task>, baselines: seq<Task>,
      others: seq<Task>, used: set<TaskId>)
    requires multiset(a) == multiset(b) && multiset(ra) == multiset(rb)
    requires Extends(baselines, others) && Extends(others, baselines)
    ensures BasisOf(a, ref, ra, baselines, used) == BasisOf(b, ref, rb, others, used)
  {
    SameLength(a, b);
    SameLength(ra, rb);
    SameRange(baselines, others, used);
    SameLatest(Related(a, ref), Related(b, ref));
  }

  /** The whole assessment depends neither on the order of the tasks nor on the order or
      repetition of the baselines. */
  lemma OrderDoesNotMatter(ref: Ref, a: seq<Task>, b: seq<Task>, baselines: seq<Task>, others: seq<Task>, coverage: Coverage)
    requires multiset(a) == multiset(b) && Extends(baselines, others) && Extends(others, baselines)
    ensures Assess(ref, a, baselines, coverage) == Assess(ref, b, others, coverage)
  {
    var ra, rb := Purposed(a, ref, Reuse), Purposed(b, ref, Reuse);
    SamePurposed(a, b, ref, Reuse);
    SameLength(ra, rb);
    SameMeasured(ra, rb);
    SameCost(a, b, ref, Creation, coverage.setupComplete);
    SameCost(a, b, ref, Maintenance, coverage.maintenanceComplete);
    assert Start(ra) == Start(rb);
    StepsPermute(baselines, Start(ra), ra, rb);
    SameSteps(baselines, others, Start(ra), rb);
    SameBasis(ref, a, b, ra, rb, baselines, others, Steps(baselines, Start(ra), ra).used);
  }

  // ----- the loop

  /** The figures of one round. */
  method ShareFor(baselines: seq<Task>, task: Task) returns (s: Share)
    ensures s == ShareOf(baselines, task)
  {
    var candidates := Candidates(baselines, task);
    if !task.complete || task.usage.None? || |candidates| == 0 { return Unmatched; }
    var credit := if task.verified then Least(candidates, TotalOf) else 0;
    var exposed := task.exposure.complete && forall b :: b in candidates ==> b.exposure.complete;
    var seen := if task.verified then Least(candidates, VisibleOf) else 0;
    var least := if task.verified then Least(candidates, ReferenceOf) else 0;
    return Matched(credit - TotalOf(task), seen - VisibleOf(task), least - ReferenceOf(task), exposed,
      AllReferenced(baselines, task), IdsOf(candidates));
  }

  /** One round: the variables of the loop, as a record, after one more task. */
  method CompareOne(baselines: seq<Task>, task: Task, before: Comparison) returns (c: Comparison)
    ensures c == Step(baselines, before, task)
  {
    var s := ShareFor(baselines, task);
    if s.Unmatched? {
      return before.(comparable := false, contextKnown := false, referenceKnown := false,
        issues := before.issues + {MissingMatch});
    }
    c := AddMatched(before, s);
  }

  method AddMatched(before: Comparison, s: Share) returns (c: Comparison)
    requires s.Matched?
    ensures c == Add(before, s)
  {
    c := before.(used := before.used + s.ids, operational := before.operational + s.gain, bytes := before.bytes + s.bytes);
    if !s.exposed {
      c := c.(contextKnown := false, referenceKnown := false, issues := c.issues + {VisibleContextIncomplete});
    }
    if s.referenced {
      c := c.(tokens := c.tokens + s.tokens);
    } else {
      c := c.(referenceKnown := false);
    }
  }

  method CompareAll(baselines: seq<Task>, reuse: seq<Task>) returns (c: Comparison)
    ensures c == Steps(baselines, Start(reuse), reuse)
  {
    c := Start(reuse);
    for i := 0 to |reuse|
      invariant Steps(baselines, c, reuse[i..]) == Steps(baselines, Start(reuse), reuse)
    {
      assert reuse[i..][0] == reuse[i] && reuse[i..][1..] == reuse[i + 1..];
      c := CompareOne(baselines, reuse[i], c);
    }
  }
}
