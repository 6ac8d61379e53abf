/** The ClickHouse store's retention statements as methods: staging, deleting and
    reconciling, where any statement may fail and the next call starts over. */
module SummaryStore {
  import opened SummaryStates
  import opened Summaries

  // ---- Which tasks to stage ----

  function TasksOfRow(r: Row): seq<Task>
  {
    [Task(Flow, r.flow), Task(Execution, r.execution)]
  }

  lemma TasksOfMore(rows: set<Row>, r: Row)
    ensures TasksOf(rows + {r}) == TasksOf(rows) + (set t | t in TasksOfRow(r) && t.identity != 0)
  {
  }

  /** stageRetentionSummaryRebuilds: zero identities are skipped and each task is staged once. */
  method StageTasks(events: seq<Row>) returns (tasks: seq<Task>)
    ensures DistinctTasks(tasks) && TaskSet(tasks) == TasksOf(RowSet(events))
  {
    tasks := [];
    for i := 0 to |events|
      invariant DistinctTasks(tasks) && TaskSet(tasks) == TasksOf(RowSet(events[..i]))
    {
      assert events[..i + 1] == events[..i] + [events[i]];
      assert RowSet(events[..i + 1]) == RowSet(events[..i]) + {events[i]};
      TasksOfMore(RowSet(events[..i]), events[i]);
      tasks := AddTask(tasks, Task(Flow, events[i].flow));
      tasks := AddTask(tasks, Task(Execution, events[i].execution));
    }
    assert events[..|events|] == events;
  }

  method AddTask(tasks: seq<Task>, t: Task) returns (more: seq<Task>)
    requires DistinctTasks(tasks)
    ensures DistinctTasks(more) && TaskSet(more) == TaskSet(tasks) + (if t.identity != 0 then {t} else {})
  {
    if t.identity == 0 || t in tasks { return tasks; }
    more := tasks + [t];
    assert forall x :: x in TaskSet(more) <==> x in TaskSet(tasks) || x == t by {
      assert more[|tasks|] == t;
      forall x | x in TaskSet(tasks) ensures x in TaskSet(more) {
        var i :| 0 <= i < |tasks| && tasks[i] == x;
        assert more[i] == x;
      }
    }
  }

  // ---- The store ----

  class Tables {
    const reliable: bool // no statement fails
    var s: State
    ghost const origin: State
    ghost var steps: seq<Step>

    ghost predicate Valid()
      reads this
    {
      CanRun(origin, steps) && Reached(origin, steps) == s && Inv(s) && Separate(s.seen)
    }

    constructor (reliable: bool, s: State)
      requires Inv(s) && Separate(s.seen)
      ensures Valid() && this.reliable == reliable && this.s == s && origin == s && steps == []
    {
      this.reliable, this.s, this.origin, this.steps := reliable, s, s, [];
    }

    method Fault() returns (failed: bool)
      ensures failed ==> !reliable
    {
      var any: bool := *;
      failed := any && !reliable;
    }

    method Do(a: Step)
      requires Valid() && Enabled(s, a) && Separate(Next(s, a).seen)
      modifies this
      ensures Valid() && s == Next(old(s), a) && old(steps) <= steps
    {
      hide Enabled, Next, Inv;
      if s.phase.Rebuilding? { SeparateHasNoTwin(s); }
      StepKeeps(s, a);
      RunThen(origin, steps, a);
      s := Next(s, a);
      steps := steps + [a];
    }

    /** An error return or a crash: the tables keep what was written. */
    method GiveUp()
      requires Valid()
      modifies this
      ensures Valid() && s == old(s).(phase := Idle) && old(steps) <= steps
    {
      Do(Crash);
    }

    /** One rebuild statement, reading the events in any order. */
    method Execute()
      requires Valid() && s.phase.Rebuilding? && !s.phase.progress.Rebuilt?
      modifies this
      ensures Valid() && old(steps) <= steps && s == old(s).(parts := s.parts, phase := s.phase)
      ensures s.phase == Rebuilding(old(s.phase.tasks), After(old(s.phase.progress)))
    {
      hide Inv, CanRun, Reached;
      var order := Enumerate(Wanted(s));
      Do(Statement(order));
    }

    /** rebuildRetentionSummaries: flows, then executions; delete, then insert. */
    method Rebuild() returns (ok: bool)
      requires Valid() && s.phase.Rebuilding? && s.phase.progress.Read?
      modifies this
      ensures Valid() && old(steps) <= steps && s == old(s).(parts := s.parts, phase := s.phase)
      ensures if ok then s.phase == Rebuilding(old(s.phase.tasks), Rebuilt) else s.phase.Idle?
      ensures reliable ==> ok
    {
      hide Inv, CanRun, Reached;
      while !s.phase.progress.Rebuilt?
        invariant Valid() && old(steps) <= steps && s == old(s).(parts := s.parts, phase := s.phase)
        invariant s.phase.Rebuilding? && s.phase.tasks == old(s.phase.tasks)
        decreases Left(s.phase.progress)
      {
        var failed := Fault();
        if failed { GiveUp(); return false; }
        Execute();
      }
      ok := true;
    }

    /** ReconcileRetention: up to a thousand tasks are rebuilt and then removed. A failure
        leaves every task staged. */
    method Reconcile() returns (ok: bool)
      requires Valid() && s.phase.Idle?
      modifies this
      ensures Valid() && old(steps) <= steps && s.phase.Idle? && s.live == old(s.live) && s.seen == old(s.seen)
      ensures if ok then |s.staged| <= Less(|old(s.staged)|, LIMIT) else s.staged == old(s.staged)
      ensures reliable ==> ok
    {
      hide CanRun, Reached, Agrees, AllOk;
      var tasks := FirstTasks(s.staged);
      if tasks == [] { return true; }
      Do(ReadTasks(tasks));
      ok := Rebuild();
      if !ok { return; }
      var failed := Fault();
      if failed { GiveUp(); return false; }
      RemoveShrinks(s);
      Do(RemoveTasks);
    }

    /** The summary side of DeleteRetentionEvents: stage, delete, reconcile. Whatever
        fails, a deleted event's flow and execution are rebuilt or still staged. */
    method DeleteEvents(events: seq<Row>) returns (ok: bool)
      requires Valid() && s.phase.Idle? && RowSet(events) <= s.live
      modifies this
      ensures Valid() && old(steps) <= steps && s.phase.Idle?
      ensures s.live == old(s.live) || s.live == Surviving(old(s.live), RowSet(events))
      ensures ok ==> s.live == Surviving(old(s.live), RowSet(events))
      ensures reliable ==> ok
    {
      hide Inv, CanRun, Reached, Surviving;
      var failed := Fault();
      if failed { return false; }
      Do(Stage(events));
      failed := Fault();
      if failed { GiveUp(); return false; }
      Do(DeleteRows);
      ok := Reconcile();
    }
  }

  lemma {:induction false} RunThen(s: State, steps: seq<Step>, a: Step)
    requires CanRun(s, steps) && Enabled(Reached(s, steps), a)
    ensures CanRun(s, steps + [a]) && Reached(s, steps + [a]) == Next(Reached(s, steps), a)
    decreases |steps|
  {
    hide Enabled, Next;
    if steps == [] {
      assert (steps + [a])[1..] == [];
      assert CanRun(Next(s, a), []);
    } else {
      RunThen(Next(s, steps[0]), steps[1..], a);
      assert (steps + [a])[1..] == steps[1..] + [a];
    }
  }

  function After(p: Progress): Progress
  {
    match p case Read => FlowsDropped case FlowsDropped => FlowsAdded case FlowsAdded => ExecutionsDropped case _ => Rebuilt
  }

  function Left(p: Progress): nat
  {
    match p case Read => 4 case FlowsDropped => 3 case FlowsAdded => 2 case ExecutionsDropped => 1 case Rebuilt => 0
  }

  /** The events the next statement reads. */
  function Wanted(s: State): set<Row>
    requires s.phase.Rebuilding?
  {
    match s.phase.progress
    case FlowsDropped => Chosen(s.live, Flow, Identities(s.phase.tasks, Flow))
    case ExecutionsDropped => Chosen(s.live, Execution, Identities(s.phase.tasks, Execution))
    case _ => {}
  }

  method Enumerate(rows: set<Row>) returns (order: seq<Row>)
    ensures RowSet(order) == rows
  {
    order := [];
    var todo := rows;
    while todo != {}
      invariant RowSet(order) + todo == rows
      decreases todo
    {
      var r :| r in todo;
      order := order + [r];
      todo := todo - {r};
    }
  }

  predicate IsFirst(t: Task, tasks: set<Task>)
  {
    t in tasks && forall q :: q in tasks ==> q == t || TaskBefore(t, q)
  }

  lemma {:induction false} FirstExists(tasks: set<Task>)
    requires tasks != {}
    ensures exists t :: IsFirst(t, tasks)
  {
    var x :| x in tasks;
    var rest := tasks - {x};
    if rest == {} {
      assert tasks == {x};
      assert IsFirst(x, tasks);
    } else {
      FirstExists(rest);
      var y :| IsFirst(y, rest);
      var z := if TaskBefore(x, y) then x else y;
      forall q | q in tasks ensures q == z || TaskBefore(z, q) { assert q == x || q in rest; }
      assert IsFirst(z, tasks);
    }
  }

  /** The first thousand staged tasks in (kind, identity) order. */
  method FirstTasks(staged: set<Task>) returns (tasks: seq<Task>)
    ensures Readable(staged, tasks)
  {
    tasks := [];
    var todo := staged;
    while |tasks| < LIMIT && todo != {}
      invariant Ordered(tasks) && |tasks| <= LIMIT && |tasks| + |todo| == |staged|
      invariant todo <= staged && forall i :: 0 <= i < |tasks| ==> tasks[i] in staged
      invariant forall t :: t in staged <==> t in todo || t in tasks
      invariant forall t, i :: t in todo && 0 <= i < |tasks| ==> TaskBefore(tasks[i], t)
      decreases todo
    {
      FirstExists(todo);
      var t :| t in todo && IsFirst(t, todo);
      tasks := tasks + [t];
      todo := todo - {t};
    }
  }
}
