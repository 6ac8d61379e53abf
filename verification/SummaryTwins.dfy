/** Rebuild tasks are removed by identity without their kind.  For every staged set in
    which a task that is read has a twin that is not, there is a run that loses the twin's
    rebuild; without such a twin every removal is safe. */
module SummaryTwins {
  import opened Objects
  import opened SummaryStates
  import opened Summaries

  // ---- Events whose deletion stages a given set ----

  /** The event of one identity: in the flow, in the execution, or in both. */
  function RowFor(staged: set<Task>, x: Id): Row
  {
    Row(x, 0, "", "", if Task(Flow, x) in staged then x else 0, if Task(Execution, x) in staged then x else 0, 0, map[])
  }

  function RowsFor(staged: set<Task>): set<Row>
  {
    set t | t in staged :: RowFor(staged, t.identity)
  }

  predicate NonZero(staged: set<Task>)
  {
    forall t :: t in staged ==> t.identity != 0
  }

  lemma RowsForTasks(staged: set<Task>)
    requires NonZero(staged)
    ensures Consistent(RowsFor(staged)) && TasksOf(RowsFor(staged)) == staged
  {
    forall t | t in staged ensures t in TasksOf(RowsFor(staged)) {
      var r := RowFor(staged, t.identity);
      assert r in RowsFor(staged);
      assert t == if t.kind.Flow? then Task(Flow, r.flow) else Task(Execution, r.execution);
    }
  }

  // ---- The run ----

  lemma RunOne(s: State, a: Step, rest: seq<Step>)
    requires Enabled(s, a) && CanRun(Next(s, a), rest)
    ensures CanRun(s, [a] + rest) && Reached(s, [a] + rest) == Reached(Next(s, a), rest)
  {
    assert ([a] + rest)[1..] == rest;
  }

  /** The group the events of a task are summarised in. */
  function GroupFor(t: Task): Group
  {
    Group(t.kind, t.identity, "", "")
  }

  lemma Inserted(staged: set<Task>, order: seq<Row>, t: Task)
    requires NonZero(staged) && RowSet(order) == RowsFor(staged) && t in staged
    ensures Enabled(Start(), Insert(order))
    ensures var s := Next(Start(), Insert(order));
            s.live == RowSet(order) && s.staged == {} && s.phase.Idle? && RowFor(staged, t.identity) in Gathered(s.parts, GroupFor(t))
  {
    hide GroupParts, TasksOf;
    RowsForTasks(staged);
    assert Start().seen + RowSet(order) == RowsFor(staged);
    InsertGather(Start(), order, GroupFor(t));
    assert RowFor(staged, t.identity) in LiveIn(RowSet(order), GroupFor(t));
  }

  lemma StagedAndDeleted(s: State, staged: set<Task>, order: seq<Row>, t: Task)
    requires NonZero(staged) && RowSet(order) == RowsFor(staged) && t in staged
    requires s.live == RowSet(order) && s.staged == {} && s.phase.Idle? && RowFor(staged, t.identity) in Gathered(s.parts, GroupFor(t))
    ensures Enabled(s, Stage(order)) && Enabled(Next(s, Stage(order)), DeleteRows)
    ensures var n := Next(Next(s, Stage(order)), DeleteRows);
            n.live == {} && n.staged == staged && n.phase.Idle? && !Agrees(n, t)
  {
    hide Gathered, TasksOf;
    RowsForTasks(staged);
    var m := Next(s, Stage(order));
    EmptiesTable(m);
    var n := Next(m, DeleteRows);
    assert Of(GroupFor(t), t) && Gathered(n.parts, GroupFor(t)) != LiveIn(n.live, GroupFor(t));
  }

  lemma EmptiesTable(s: State)
    requires s.phase.Staged? && s.live <= s.phase.doomed
    ensures Surviving(s.live, s.phase.doomed) == {}
  {
  }

  /** A rebuild statement over an empty table leaves the summaries of an unread task as they are. */
  lemma StatementSkips(s: State, t: Task)
    requires s.live == {} && s.phase.Rebuilding? && !s.phase.progress.Rebuilt? && t !in s.phase.tasks && t.identity != 0 && !Agrees(s, t)
    ensures Enabled(s, Statement([]))
    ensures var n := Next(s, Statement([]));
            && n.live == {} && n.staged == s.staged && !Agrees(n, t)
            && n.phase == Rebuilding(s.phase.tasks, Then(s.phase.progress))
  {
    hide Agrees, Drop;
    var tasks, n := s.phase.tasks, Next(s, Statement([]));
    assert RowSet([]) == {};
    match s.phase.progress
    case Read => DropStatement(s, n, Flow, tasks, t);
    case FlowsDropped => AddStatement(s, n, Flow, tasks, [], t);
    case FlowsAdded => DropStatement(s, n, Execution, tasks, t);
    case ExecutionsDropped => AddStatement(s, n, Execution, tasks, [], t);
  }

  function Then(p: Progress): Progress
  {
    match p case Read => FlowsDropped case FlowsDropped => FlowsAdded case FlowsAdded => ExecutionsDropped case _ => Rebuilt
  }

  function Statements(n: nat): seq<Step>
  {
    if n == 0 then [] else [Statement([])] + Statements(n - 1)
  }

  function Left(p: Progress): nat
  {
    match p case Read => 4 case FlowsDropped => 3 case FlowsAdded => 2 case ExecutionsDropped => 1 case Rebuilt => 0
  }

  lemma {:induction false} RebuildSkips(s: State, t: Task)
    requires s.live == {} && s.phase.Rebuilding? && t !in s.phase.tasks && t.identity != 0 && !Agrees(s, t)
    ensures var steps := Statements(Left(s.phase.progress));
            && CanRun(s, steps)
            && var n := Reached(s, steps);
               n.staged == s.staged && n.phase == Rebuilding(s.phase.tasks, Rebuilt) && !Agrees(n, t)
    decreases Left(s.phase.progress)
  {
    hide Enabled, Next, Agrees;
    if !s.phase.progress.Rebuilt? {
      StatementSkips(s, t);
      var n := Next(s, Statement([]));
      RebuildSkips(n, t);
      RunOne(s, Statement([]), Statements(Left(n.phase.progress)));
    }
  }

  lemma ReadSkips(s: State, tasks: seq<Task>, t: Task)
    requires s.live == {} && s.phase.Idle? && tasks != [] && Readable(s.staged, tasks) && !Agrees(s, t)
    ensures Enabled(s, ReadTasks(tasks))
    ensures var n := Next(s, ReadTasks(tasks)); n == s.(phase := Rebuilding(tasks, Read)) && !Agrees(n, t)
  {
    hide Agrees, Readable;
    SameGathered(s, Next(s, ReadTasks(tasks)), t);
  }

  /** Everything up to the removal: insert, stage, delete, read, rebuild. */
  function StaleRun(order: seq<Row>, tasks: seq<Task>): seq<Step>
  {
    [Insert(order)] + ([Stage(order)] + ([DeleteRows] + ([ReadTasks(tasks)] + Statements(4))))
  }

  /** For every staged set and read prefix with an unread twin, a run from the empty
      database stages that set, reads that prefix, rebuilds it, and leaves the twin's
      summary stale at the moment the tasks are removed. */
  lemma TwinIsNotRebuilt(staged: set<Task>, tasks: seq<Task>, t: Task, order: seq<Row>)
    requires NonZero(staged) && Readable(staged, tasks) && UnreadTwin(staged, tasks, t) && RowSet(order) == RowsFor(staged)
    ensures CanRun(Start(), StaleRun(order, tasks))
    ensures var s := Reached(Start(), StaleRun(order, tasks));
            s.staged == staged && s.phase == Rebuilding(tasks, Rebuilt) && !Agrees(s, t)
  {
    hide Enabled, Next, CanRun, Reached, Agrees, Gathered, Readable, RowsFor, Statements;
    Inserted(staged, order, t);
    var s1 := Next(Start(), Insert(order));
    StagedAndDeleted(s1, staged, order, t);
    var s2 := Next(s1, Stage(order));
    var s3 := Next(s2, DeleteRows);
    ReadSkips(s3, tasks, t);
    var s4 := Next(s3, ReadTasks(tasks));
    RebuildSkips(s4, t);
    var rest := Statements(4);
    RunOne(s3, ReadTasks(tasks), rest);
    RunOne(s2, DeleteRows, [ReadTasks(tasks)] + rest);
    RunOne(s1, Stage(order), [DeleteRows] + ([ReadTasks(tasks)] + rest));
    RunOne(Start(), Insert(order), [Stage(order)] + ([DeleteRows] + ([ReadTasks(tasks)] + rest)));
  }

  // ---- Removal is safe exactly without unread twins ----

  lemma RemovalStrands(s: State, t: Task)
    requires s.phase.Rebuilding? && s.phase.progress.Rebuilt? && UnreadTwin(s.staged, s.phase.tasks, t) && !Agrees(s, t)
    ensures Enabled(s, RemoveTasks)
    ensures t !in Next(s, RemoveTasks).staged && !Agrees(Next(s, RemoveTasks), t)
  {
    RemovedOrTwin(s.staged, s.phase.tasks, t);
    SameGathered(s, Next(s, RemoveTasks), t);
  }

  /** Runs without a removal are guarded. */
  lemma {:induction false} QuietRunIsGuarded(s: State, steps: seq<Step>)
    requires CanRun(s, steps) && forall i :: 0 <= i < |steps| ==> !steps[i].RemoveTasks?
    ensures GuardedRun(s, steps)
    decreases |steps|
  {
    hide Enabled, Next;
    if steps != [] { QuietRunIsGuarded(Next(s, steps[0]), steps[1..]); }
  }

  /** The states in which these tasks, read from this staged set, are about to be removed. */
  ghost predicate AtRemoval(s: State, staged: set<Task>, tasks: seq<Task>)
  {
    Inv(s) && s.staged == staged && s.phase == Rebuilding(tasks, Rebuilt)
  }

  lemma {:induction false} ListRows(rows: set<Row>) returns (order: seq<Row>)
    ensures RowSet(order) == rows
  {
    if rows == {} {
      order := [];
    } else {
      var r :| r in rows;
      var rest := ListRows(rows - {r});
      order := [r] + rest;
      assert RowSet(order) == {r} + RowSet(rest);
    }
  }

  lemma StaleRunReaches(staged: set<Task>, tasks: seq<Task>, t: Task) returns (s: State)
    requires NonZero(staged) && Readable(staged, tasks) && UnreadTwin(staged, tasks, t)
    ensures AtRemoval(s, staged, tasks) && !CrashInv(Next(s, RemoveTasks))
  {
    hide Inv, CanRun, Reached, Agrees, Readable, RowsFor;
    var order := ListRows(RowsFor(staged));
    TwinIsNotRebuilt(staged, tasks, t, order);
    var run := StaleRun(order, tasks);
    assert forall i :: 0 <= i < |run| ==> !run[i].RemoveTasks? by { StatementsOnly(4); }
    QuietRunIsGuarded(Start(), run);
    StartInv();
    RunKeeps(Start(), run);
    s := Reached(Start(), run);
    RemovalStrands(s, t);
  }

  lemma {:induction false} StatementsOnly(n: nat)
    ensures forall i :: 0 <= i < |Statements(n)| ==> Statements(n)[i].Statement?
  {
    if n > 0 { StatementsOnly(n - 1); }
  }

  /** Removing the tasks read from a staged set is safe in every state if and only if no
      staged task outside the read prefix shares an identity with one inside. */
  lemma RemoveSafeExactly(staged: set<Task>, tasks: seq<Task>)
    requires NonZero(staged) && Readable(staged, tasks)
    ensures NoUnreadTwin(staged, tasks) <==> forall s :: AtRemoval(s, staged, tasks) ==> CrashInv(Next(s, RemoveTasks))
  {
    hide Agrees, Readable;
    if NoUnreadTwin(staged, tasks) {
      forall s | AtRemoval(s, staged, tasks) ensures CrashInv(Next(s, RemoveTasks)) { RemoveKeeps(s); }
    } else {
      var t :| UnreadTwin(staged, tasks, t);
      var s := StaleRunReaches(staged, tasks, t);
    }
  }

  // ---- A staged set of a thousand and one ----

  function SharedFlows(): seq<Task>
  {
    seq(LIMIT, i requires 0 <= i < LIMIT => Task(Flow, i + 1))
  }

  const LOST := Task(Execution, 1)

  /** Flows 1 to 1000 and the execution that shares the identity of the first. */
  function SharedSet(): set<Task>
  {
    TaskSet(SharedFlows()) + {LOST}
  }

  lemma SharedReadable()
    ensures NonZero(SharedSet()) && Readable(SharedSet(), SharedFlows()) && UnreadTwin(SharedSet(), SharedFlows(), LOST)
  {
    var tasks := SharedFlows();
    OrderedDistinct(tasks);
    TaskSetSize(tasks);
    assert LOST !in TaskSet(tasks);
    assert tasks[0] == Twin(LOST) && tasks[0] in tasks;
  }

  function SharedBlock(): seq<Row>
  {
    seq(LIMIT, i requires 0 <= i < LIMIT => RowFor(SharedSet(), i + 1))
  }

  lemma SharedBlockRows()
    ensures RowSet(SharedBlock()) == RowsFor(SharedSet())
  {
    hide RowFor;
    var staged, block := SharedSet(), SharedBlock();
    forall r | r in RowsFor(staged) ensures r in RowSet(block) {
      var t :| t in staged && r == RowFor(staged, t.identity);
      assert 1 <= t.identity <= LIMIT;
      assert block[t.identity - 1] == r;
    }
    forall r | r in RowSet(block) ensures r in RowsFor(staged) {
      var i :| 0 <= i < LIMIT && block[i] == r;
      assert SharedFlows()[i] in staged && SharedFlows()[i].identity == i + 1;
    }
  }

  /** A run that loses a rebuild: the thousand flows are read, the execution of the same
      identity as the first is removed with them, and its summary stays stale. */
  lemma SharedIdentityGoesStale()
    ensures var run := StaleRun(SharedBlock(), SharedFlows());
            && CanRun(Start(), run) && Enabled(Reached(Start(), run), RemoveTasks)
            && var n := Next(Reached(Start(), run), RemoveTasks);
               LOST !in n.staged && !Agrees(n, LOST)
  {
    hide CanRun, Reached, Agrees, RowsFor, SharedSet, SharedFlows, SharedBlock, StaleRun, Readable;
    SharedReadable();
    SharedBlockRows();
    TwinIsNotRebuilt(SharedSet(), SharedFlows(), LOST, SharedBlock());
    RemovalStrands(Reached(Start(), StaleRun(SharedBlock(), SharedFlows())), LOST);
  }
}
