/** The measurement ledger (infrastructure/measurement/repository.py:29-102, 111-115, 131-157). */
module Ledger {
  import opened Prelude
  import opened Measurement

  type Ref = string

  datatype Coverage = Coverage(setupComplete: bool, maintenanceComplete: bool)

  /** The tables: tasks by id, with `sourceKey` unique, the task each run belongs to, the links
      from workflows to baseline tasks, and the declared coverage of a workflow's costs. */
  datatype Tables = Tables(tasks: map<TaskId, Task>, runTasks: map<string, TaskId>, baselines: set<(Ref, TaskId)>,
    coverage: map<Ref, Coverage>)

  datatype LedgerError = TaskIdConflict | HistoryRegressed | HistoryChanged | DuplicateHistory | RunAlreadyAttributed

  // ----- put

  predicate SameIdentity(a: Task, b: Task) {
    a.sourceKey == b.sourceKey && a.host == b.host && a.purpose == b.purpose && a.workload == b.workload
  }

  predicate Equal(a: Task, b: Task) {
    a.(observedAt := "") == b.(observedAt := "")
  }

  /** What the earlier record of the task has against its replacement; `None` is nothing. */
  function Objection(previous: Task, t: Task): Option<LedgerError> {
    if !SameIdentity(previous, t) then Some(TaskIdConflict)
    else if previous.complete && (previous.runIds != t.runIds || previous.workflowRef != t.workflowRef)
    then Some(TaskIdConflict)
    else if !(Elements(previous.runIds) <= Elements(t.runIds)) then Some(HistoryRegressed)
    else if HasModel(previous) && t.model != previous.model then Some(TaskIdConflict)
    else None
  }

  function LateObjection(previous: Task, t: Task): Option<LedgerError> {
    if previous.complete && !t.complete then Some(HistoryRegressed)
    else if previous.complete && previous.sourceDigest != t.sourceDigest then Some(HistoryChanged)
    else None
  }

  predicate SameFile(a: Task, b: Task) {
    a.sourceFileKey != "" && a.sourceFileKey == b.sourceFileKey
  }

  predicate Overlaps(a: Task, b: Task) {
    && (b.lastLine.None? || a.firstLine <= b.lastLine.value)
    && (a.lastLine.None? || b.firstLine <= a.lastLine.value)
  }

  predicate CopiedHistory(a: Task, b: Task) {
    a.complete && b.complete && a.host == b.host && a.sourceDigest == b.sourceDigest
  }

  predicate Clashes(a: Task, b: Task) {
    a.sourceKey == b.sourceKey || (SameFile(a, b) && Overlaps(a, b)) || CopiedHistory(a, b)
  }

  ghost predicate ClashesWithAnother(l: Tables, t: Task) {
    exists id :: id in l.tasks && id != t.taskId && Clashes(t, l.tasks[id])
  }

  predicate Attributed(l: Tables, t: Task) {
    exists r :: r in t.runIds && r in l.runTasks && l.runTasks[r] != t.taskId
  }

  function WithRuns(runTasks: map<string, TaskId>, runs: seq<string>, id: TaskId): map<string, TaskId> {
    map r | r in runTasks.Keys + Elements(runs) :: if r in runTasks then runTasks[r] else id
  }

  function Stored(l: Tables, t: Task): Tables {
    l.(tasks := l.tasks[t.taskId := t], runTasks := WithRuns(l.runTasks, t.runIds, t.taskId))
  }

  /** One transaction. The result says whether anything but the time of observation changed. */
  ghost function Put(l: Tables, t: Task): (Tables, Result<bool, LedgerError>) {
    var early := if t.taskId in l.tasks then Objection(l.tasks[t.taskId], t) else None;
    if early.Some? then (l, Err(early.value))
    else if t.taskId in l.tasks && Equal(l.tasks[t.taskId], t) then (l, Ok(false))
    else
      var late := if t.taskId in l.tasks then LateObjection(l.tasks[t.taskId], t) else None;
      if late.Some? then (l, Err(late.value))
      else if ClashesWithAnother(l, t) then (l, Err(DuplicateHistory))
      else if Attributed(l, t) then (l, Err(RunAlreadyAttributed))
      else (Stored(l, t), Ok(true))
  }

  // ----- retention

  /** Text order, as the database compares timestamps. */
  predicate Before(a: string, b: string)
    decreases |a|
  {
    b != [] && (a == [] || a[0] < b[0] || (a[0] == b[0] && Before(a[1..], b[1..])))
  }

  function Expired(l: Tables, since: string): set<TaskId> {
    set id | id in l.tasks && Before(l.tasks[id].observedAt, since)
  }

  function ForgetTask(l: Tables, id: TaskId, ref: Option<Ref>): Tables {
    Tables(
      l.tasks - {id},
      (map r | r in l.runTasks && l.runTasks[r] != id :: l.runTasks[r]),
      (set b | b in l.baselines && b.1 != id),
      if ref.Some? then l.coverage - {ref.value} else l.coverage)
  }

  function ForgottenRefs(l: Tables, gone: set<TaskId>): set<Ref> {
    set id | id in gone && id in l.tasks && l.tasks[id].workflowRef.Some? :: l.tasks[id].workflowRef.value
  }

  function Forget(l: Tables, gone: set<TaskId>): Tables {
    Tables(
      l.tasks - gone,
      (map r | r in l.runTasks && l.runTasks[r] !in gone :: l.runTasks[r]),
      (set b | b in l.baselines && b.1 !in gone),
      l.coverage - ForgottenRefs(l, gone))
  }

  // ----- what always holds

  ghost predicate IdsAreKeys(l: Tables) {
    forall id :: id in l.tasks ==> l.tasks[id].taskId == id
  }

  /** No line of a history file is accounted for twice. */
  ghost predicate LinesAreDisjoint(l: Tables) {
    forall a, b, line: nat :: a in l.tasks && b in l.tasks && a != b && SameFile(l.tasks[a], l.tasks[b]) ==>
      !(Covers(l.tasks[a], line) && Covers(l.tasks[b], line))
  }

  ghost predicate NoneClash(l: Tables) {
    forall a, b :: a in l.tasks && b in l.tasks && a != b ==> !Clashes(l.tasks[a], l.tasks[b])
  }

  /** No complete history is accounted for twice under one host. */
  ghost predicate DigestsAreDistinct(l: Tables) {
    forall a, b ::
      (a in l.tasks && b in l.tasks && a != b && l.tasks[a].complete && l.tasks[b].complete
      && l.tasks[a].host == l.tasks[b].host) ==>
        l.tasks[a].sourceDigest != l.tasks[b].sourceDigest
  }

  predicate Names(l: Tables, run: string, id: TaskId) {
    id in l.tasks && run in l.tasks[id].runIds
  }

  /** The table of runs is exactly the inverse of the tasks' lists of runs. */
  ghost predicate IndexIsInverse(l: Tables) {
    forall run, id :: Names(l, run, id) <==> run in l.runTasks && l.runTasks[run] == id
  }

  ghost predicate Valid(l: Tables) {
    IdsAreKeys(l) && NoneClash(l) && IndexIsInverse(l)
  }

  lemma ClashIsSymmetric(a: Task, b: Task)
    ensures Clashes(a, b) <==> Clashes(b, a)
  {
  }

  /** The comparison of first and last lines rejects exactly the ranges that share a line, and
      a few empty ones. */
  lemma OverlapMeansSharedLine(a: Task, b: Task, line: nat)
    ensures Covers(a, line) && Covers(b, line) ==> Overlaps(a, b)
  {
  }

  lemma OverlapSharesLine(a: Task, b: Task)
    requires a.lastLine.Some? ==> a.firstLine <= a.lastLine.value
    requires b.lastLine.Some? ==> b.firstLine <= b.lastLine.value
    ensures Overlaps(a, b) <==> exists line: nat :: Covers(a, line) && Covers(b, line)
  {
    var line := if a.firstLine >= b.firstLine then a.firstLine else b.firstLine;
    if Overlaps(a, b) { assert Covers(a, line) && Covers(b, line); }
  }

  lemma ValidMeansDisjoint(l: Tables)
    requires Valid(l)
    ensures LinesAreDisjoint(l) && DigestsAreDistinct(l)
  {
    forall a, b, line: nat | a in l.tasks && b in l.tasks && a != b && SameFile(l.tasks[a], l.tasks[b])
      ensures !(Covers(l.tasks[a], line) && Covers(l.tasks[b], line))
    {
      OverlapMeansSharedLine(l.tasks[a], l.tasks[b], line);
    }
  }

  /** Each run belongs to one task at most. */
  lemma RunsHaveOneTask(l: Tables, run: string, a: TaskId, b: TaskId)
    requires Valid(l) && Names(l, run, a) && Names(l, run, b)
    ensures a == b
  {
  }

  lemma PutKeepsValid(l: Tables, t: Task)
    requires Valid(l)
    ensures Valid(Put(l, t).0)
  {
    var l' := Put(l, t).0;
    if l' != l {
      forall a, b | a in l'.tasks && b in l'.tasks && a != b ensures !Clashes(l'.tasks[a], l'.tasks[b]) {
        ClashIsSymmetric(l'.tasks[a], l'.tasks[b]);
      }
      forall run, id ensures Names(l', run, id) <==> run in l'.runTasks && l'.runTasks[run] == id {
        assert Names(l, run, id) <==> run in l.runTasks && l.runTasks[run] == id;
        if id == t.taskId && id in l.tasks {
          assert Elements(l.tasks[id].runIds) <= Elements(t.runIds);
          assert run in l.tasks[id].runIds ==> run in Elements(l.tasks[id].runIds);
        }
      }
    }
  }

  lemma ForgetKeepsValid(l: Tables, gone: set<TaskId>)
    requires Valid(l)
    ensures Valid(Forget(l, gone))
  {
    var l' := Forget(l, gone);
    forall run, id ensures Names(l', run, id) <==> run in l'.runTasks && l'.runTasks[run] == id {
      assert Names(l, run, id) <==> run in l.runTasks && l.runTasks[run] == id;
    }
  }

  // ----- histories

  datatype Action = Record(task: Task) | Retain(since: string) | Link(ref: Ref, id: TaskId)
    | Declare(declared: Ref, coverage: Coverage)

  ghost function Act(l: Tables, a: Action): Tables {
    match a
    case Record(t) => Put(l, t).0
    case Retain(since) => Forget(l, Expired(l, since))
    case Link(ref, id) => l.(baselines := l.baselines + {(ref, id)})
    case Declare(ref, c) => l.(coverage := l.coverage[ref := c])
  }

  ghost function ActAll(l: Tables, actions: seq<Action>): Tables
    decreases |actions|
  {
    if actions == [] then l else ActAll(Act(l, actions[0]), actions[1..])
  }

  const EMPTY := Tables(map[], map[], {}, map[])

  lemma ActionKeepsValid(l: Tables, a: Action)
    requires Valid(l)
    ensures Valid(Act(l, a))
  {
    match a
    case Record(t) => PutKeepsValid(l, t);
    case Retain(since) => ForgetKeepsValid(l, Expired(l, since));
    case Link(_, _) => assert forall run, id :: Names(Act(l, a), run, id) == Names(l, run, id);
    case Declare(_, _) => assert forall run, id :: Names(Act(l, a), run, id) == Names(l, run, id);
  }

  lemma {:induction false} HistoryKeepsValid(l: Tables, actions: seq<Action>)
    requires Valid(l)
    ensures Valid(ActAll(l, actions))
    decreases |actions|
  {
    if actions != [] {
      ActionKeepsValid(l, actions[0]);
      HistoryKeepsValid(Act(l, actions[0]), actions[1..]);
    }
  }

  /** After any history, nothing is accounted for twice. */
  lemma NothingCountedTwice(actions: seq<Action>)
    ensures var l := ActAll(EMPTY, actions);
      LinesAreDisjoint(l) && DigestsAreDistinct(l) && IndexIsInverse(l)
  {
    assert Valid(EMPTY);
    HistoryKeepsValid(EMPTY, actions);
    ValidMeansDisjoint(ActAll(EMPTY, actions));
  }

  /** The task is there after every action. */
  ghost predicate Survives(l: Tables, actions: seq<Action>, id: TaskId)
    decreases |actions|
  {
    id in l.tasks && (actions == [] || Survives(Act(l, actions[0]), actions[1..], id))
  }

  /** How a stored task may change: never who or what it is, never backwards, and not at all in
      what counts once it is complete. */
  predicate Grew(a: Task, b: Task) {
    && SameIdentity(a, b) && Elements(a.runIds) <= Elements(b.runIds)
    && (HasModel(a) ==> b.model == a.model)
    && (a.complete ==>
      && b.complete && b.sourceDigest == a.sourceDigest && b.runIds == a.runIds && b.workflowRef == a.workflowRef)
  }

  lemma ActionGrows(l: Tables, a: Action, id: TaskId)
    requires IdsAreKeys(l) && id in l.tasks && id in Act(l, a).tasks
    ensures Grew(l.tasks[id], Act(l, a).tasks[id])
  {
  }

  /** A task that survives keeps its identity, and a complete one its digest, runs and workflow. */
  lemma {:induction false} TasksOnlyGrow(l: Tables, actions: seq<Action>, id: TaskId)
    requires Valid(l) && Survives(l, actions, id)
    ensures id in ActAll(l, actions).tasks && Grew(l.tasks[id], ActAll(l, actions).tasks[id])
    decreases |actions|
  {
    if actions != [] {
      ActionGrows(l, actions[0], id);
      ActionKeepsValid(l, actions[0]);
      TasksOnlyGrow(Act(l, actions[0]), actions[1..], id);
    }
  }

  /** Recording the same observation again, whenever it is made, changes nothing and says so. */
  lemma RepeatedRecordIsNoChange(l: Tables, t: Task, again: Task)
    requires Put(l, t).1.Ok? && Equal(t, again)
    requires Valid(l)
    ensures Put(Put(l, t).0, again) == (Put(l, t).0, Ok(false))
  {
    assert again.taskId == t.taskId && again.runIds == t.runIds;
  }

  // ----- what is recorded, and what is forgotten

  /** Two records clash exactly when they select the same history, when a line of one file counts
      for both, or when they are complete copies of one history under one host. */
  lemma ClashesExactlyWhen(a: Task, b: Task)
    requires a.lastLine.Some? ==> a.firstLine <= a.lastLine.value
    requires b.lastLine.Some? ==> b.firstLine <= b.lastLine.value
    ensures Clashes(a, b) <==>
      || a.sourceKey == b.sourceKey
      || (a.sourceFileKey == b.sourceFileKey != "" && exists line: nat :: Covers(a, line) && Covers(b, line))
      || (a.complete && b.complete && a.host == b.host && a.sourceDigest == b.sourceDigest)
  {
    OverlapSharesLine(a, b);
  }

  /** The record of the same task is there already, whenever it was made. */
  predicate IsKnown(l: Tables, t: Task) {
    t.taskId in l.tasks && Equal(l.tasks[t.taskId], t)
  }

  /** Nothing speaks against the record: it continues what is stored of its task. */
  predicate Continues(l: Tables, t: Task) {
    t.taskId in l.tasks ==> Grew(l.tasks[t.taskId], t)
  }

  /** Another task has one of its runs. */
  ghost predicate SharesRun(l: Tables, t: Task) {
    exists run, id :: run in t.runIds && id != t.taskId && Names(l, run, id)
  }

  lemma AttributedMeansShared(l: Tables, t: Task)
    requires Valid(l)
    ensures Attributed(l, t) <==> SharesRun(l, t)
  {
    if Attributed(l, t) {
      var run :| run in t.runIds && run in l.runTasks && l.runTasks[run] != t.taskId;
      assert Names(l, run, l.runTasks[run]);
    }
    if SharesRun(l, t) {
      var run, id :| run in t.runIds && id != t.taskId && Names(l, run, id);
      assert l.runTasks[run] == id;
    }
  }

  lemma ObjectionsAreToGrowth(l: Tables, t: Task)
    requires t.taskId in l.tasks
    ensures var p := l.tasks[t.taskId];
      && (Grew(p, t) <==> Objection(p, t).None? && LateObjection(p, t).None?)
      && (Equal(p, t) ==> Grew(p, t))
  {
  }

  /** An observation is accepted exactly when it continues what is stored of its task and, unless
      that is the very same, clashes with no other task and names no run of another. Then it is
      what is stored of its task, and nothing else changes but the runs it names. A clash is told
      before a foreign run. */
  lemma RecordedExactlyWhen(l: Tables, t: Task)
    requires Valid(l)
    ensures var (l', r) := Put(l, t);
      && (r.Ok? <==> Continues(l, t) && (IsKnown(l, t) || (!ClashesWithAnother(l, t) && !SharesRun(l, t))))
      && (r.Ok? ==> (r.value <==> !IsKnown(l, t)))
      && (r == Ok(true) ==>
            && l'.tasks == l.tasks[t.taskId := t] && l'.baselines == l.baselines && l'.coverage == l.coverage
            && (forall run, id :: Names(l', run, id) <==> if id == t.taskId then run in t.runIds else Names(l, run, id)))
      && (r != Ok(true) ==> l' == l)
      && (r == Err(DuplicateHistory) <==> Continues(l, t) && !IsKnown(l, t) && ClashesWithAnother(l, t))
      && (r == Err(RunAlreadyAttributed) <==>
            Continues(l, t) && !IsKnown(l, t) && !ClashesWithAnother(l, t) && SharesRun(l, t))
  {
    AttributedMeansShared(l, t);
    if t.taskId in l.tasks { ObjectionsAreToGrowth(l, t); }
  }

  /** What is said against a record that does not continue its task: another identity, another
      model, or runs or a workflow other than those of a complete task, and then history that is
      lost or was changed. */
  lemma RefusedExactlyWhen(l: Tables, t: Task)
    requires Valid(l) && t.taskId in l.tasks
    ensures var (p, r) := (l.tasks[t.taskId], Put(l, t).1);
      var foreign := !SameIdentity(p, t) || (p.complete && (p.runIds != t.runIds || p.workflowRef != t.workflowRef));
      var lost := !(Elements(p.runIds) <= Elements(t.runIds));
      var other := HasModel(p) && t.model != p.model;
      && (r == Err(TaskIdConflict) <==> foreign || (!lost && other))
      && (r == Err(HistoryRegressed) <==> !foreign && (lost || (!other && p.complete && !t.complete)))
      && (r == Err(HistoryChanged) <==>
            !foreign && !lost && !other && p.complete && t.complete && p.sourceDigest != t.sourceDigest)
  {
  }

  /** Text comes before another when it ends inside it, or has the smaller character where they
      first differ. */
  lemma {:induction false} BeforeExactlyWhen(a: string, b: string)
    ensures Before(a, b) <==>
      exists k :: 0 <= k <= |a| && k < |b| && a[..k] == b[..k] && (k == |a| || a[k] < b[k])
    decreases |a|
  {
    if a != [] && b != [] && a[0] == b[0] {
      BeforeExactlyWhen(a[1..], b[1..]);
      if k :| 0 <= k <= |a| - 1 && k < |b| - 1 && a[1..][..k] == b[1..][..k] && (k == |a| - 1 || a[1..][k] < b[1..][k]) {
        assert a[..k + 1] == [a[0]] + a[1..][..k] && b[..k + 1] == [b[0]] + b[1..][..k];
      }
      if k :| 0 <= k <= |a| && k < |b| && a[..k] == b[..k] && (k == |a| || a[k] < b[k]) {
        assert k > 0 && a[1..][..k - 1] == a[..k][1..] && b[1..][..k - 1] == b[..k][1..];
      }
    } else if b != [] {
      assert a[..0] == b[..0];
    }
  }

  /** Retention takes exactly the tasks observed before the time, with their runs and links, and
      the coverage declared for their workflows; every other row stays as it is. */
  lemma RetentionTakes(l: Tables, since: string)
    requires Valid(l)
    ensures var l' := Act(l, Retain(since));
      && (forall id :: id in l'.tasks <==> id in l.tasks && !Before(l.tasks[id].observedAt, since))
      && (forall id :: id in l'.tasks ==> l'.tasks[id] == l.tasks[id])
      && (forall run, id :: Names(l', run, id) <==> Names(l, run, id) && id in l'.tasks)
      && (forall ref, id :: (ref, id) in l'.baselines <==>
            (ref, id) in l.baselines && (id in l.tasks ==> id in l'.tasks))
      && (forall ref :: ref in l'.coverage <==>
            ref in l.coverage && forall id :: id in l.tasks && l.tasks[id].workflowRef == Some(ref) ==> id in l'.tasks)
      && (forall ref :: ref in l'.coverage ==> l'.coverage[ref] == l.coverage[ref])
  {
    var gone := Expired(l, since);
    forall ref ensures ref in ForgottenRefs(l, gone) <==>
      exists id :: id in l.tasks && l.tasks[id].workflowRef == Some(ref) && id in gone
    {
      if id :| id in l.tasks && l.tasks[id].workflowRef == Some(ref) && id in gone {
        assert l.tasks[id].workflowRef.value in ForgottenRefs(l, gone);
      }
    }
  }

  // ----- the repository as an object

  lemma ForgetOneMore(l: Tables, gone: set<TaskId>, id: TaskId)
    requires id in l.tasks && id !in gone
    ensures ForgetTask(Forget(l, gone), id, l.tasks[id].workflowRef) == Forget(l, gone + {id})
  {
    var a, b := ForgetTask(Forget(l, gone), id, l.tasks[id].workflowRef), Forget(l, gone + {id});
    assert a.tasks == b.tasks;
    assert a.runTasks == b.runTasks;
    assert a.baselines == b.baselines;
    var ref := l.tasks[id].workflowRef;
    assert ForgottenRefs(l, gone + {id}) == ForgottenRefs(l, gone) + (if ref.Some? then {ref.value} else {});
    assert a.coverage == b.coverage;
  }

  lemma ForgetNone(l: Tables)
    ensures Forget(l, {}) == l
  {
    var f := Forget(l, {});
    assert f.tasks == l.tasks && f.runTasks == l.runTasks && f.baselines == l.baselines;
    assert ForgottenRefs(l, {}) == {} && f.coverage == l.coverage;
  }

  lemma OneMoreRun(m: map<string, TaskId>, runs: seq<string>, run: string, id: TaskId)
    ensures var w := WithRuns(m, runs, id);
      WithRuns(m, runs + [run], id) == if run in w then w else w[run := id]
  {
    var w, w' := WithRuns(m, runs, id), WithRuns(m, runs + [run], id);
    assert Elements(runs + [run]) == Elements(runs) + {run};
    assert w'.Keys == w.Keys + {run};
  }

  class SqliteMeasurements {
    var tables: Tables

    constructor ()
      ensures tables == EMPTY
    {
      tables := EMPTY;
    }

    method Record(t: Task) returns (r: Result<bool, LedgerError>)
      modifies this
      ensures (tables, r) == Put(old(tables), t)
    {
      if t.taskId in tables.tasks {
        var previous := tables.tasks[t.taskId];
        var early := Objection(previous, t);
        if early.Some? { return Err(early.value); }
        if Equal(previous, t) { return Ok(false); }
        var late := LateObjection(previous, t);
        if late.Some? { return Err(late.value); }
      }
      var clash := FindClash(t);
      if clash { return Err(DuplicateHistory); }
      var runTasks := Attribute(t);
      if runTasks.None? { return Err(RunAlreadyAttributed); }
      tables := tables.(tasks := tables.tasks[t.taskId := t], runTasks := runTasks.value);
      return Ok(true);
    }

    /** The loop over the other tasks, in whatever order the rows come. */
    method FindClash(t: Task) returns (clash: bool)
      ensures clash == ClashesWithAnother(tables, t)
    {
      var rows := tables.tasks.Keys - {t.taskId};
      while rows != {}
        invariant rows <= tables.tasks.Keys - {t.taskId}
        invariant forall id :: id in tables.tasks && id != t.taskId && id !in rows ==> !Clashes(t, tables.tasks[id])
        decreases |rows|
      {
        var id :| id in rows;
        if Clashes(t, tables.tasks[id]) { return true; }
        rows := rows - {id};
      }
      return false;
    }

    /** The loop over the runs of the task; a run of another task undoes what was inserted. */
    method Attribute(t: Task) returns (r: Option<map<string, TaskId>>)
      ensures r == if Attributed(tables, t) then None else Some(WithRuns(tables.runTasks, t.runIds, t.taskId))
    {
      var runTasks := tables.runTasks;
      for i := 0 to |t.runIds|
        invariant runTasks == WithRuns(tables.runTasks, t.runIds[..i], t.taskId)
        invariant forall k :: 0 <= k < i && t.runIds[k] in tables.runTasks ==> tables.runTasks[t.runIds[k]] == t.taskId
      {
        var run := t.runIds[i];
        if run in runTasks && runTasks[run] != t.taskId { return None; }
        OneMoreRun(tables.runTasks, t.runIds[..i], run, t.taskId);
        assert t.runIds[..i + 1] == t.runIds[..i] + [run];
        if run !in runTasks { runTasks := runTasks[run := t.taskId]; }
      }
      assert t.runIds[..|t.runIds|] == t.runIds;
      return Some(runTasks);
    }

    method RetainSince(since: string)
      modifies this
      ensures tables == Forget(old(tables), Expired(old(tables), since))
    {
      var start, rest := tables, Expired(tables, since);
      ghost var gone: set<TaskId> := {};
      ForgetNone(start);
      while rest != {}
        invariant gone + rest == Expired(start, since) && gone !! rest
        invariant tables == Forget(start, gone)
        decreases |rest|
      {
        var id :| id in rest;
        ForgetOneMore(start, gone, id);
        tables := ForgetTask(tables, id, start.tasks[id].workflowRef);
        rest, gone := rest - {id}, gone + {id};
      }
    }
  }
}
