/** Maintenance of the ClickHouse summaries as a state machine: materialized views fold
    every insert block into the summary tables, background merges combine parts, and a
    deletion stages rebuild tasks that a later reconcile works off a thousand at a time.
    Each statement is a step and the process may crash between any two. */
module Summaries {
  import opened Objects
  import opened SummaryStates

  /** A part of a summary table: one group's state, and the rows it was computed from. */
  datatype Part = Part(group: Group, state: Agg, rows: set<Row>)

  datatype Task = Task(kind: Kind, identity: Id)

  /** Statements of one rebuild, in order. */
  datatype Progress = Read | FlowsDropped | FlowsAdded | ExecutionsDropped | Rebuilt

  datatype Phase = Idle | Staged(doomed: set<Row>) | Rebuilding(tasks: seq<Task>, progress: Progress)

  /** seen is the history of inserted rows. */
  datatype State = State(live: set<Row>, parts: seq<Part>, staged: set<Task>, phase: Phase, seen: set<Row>)

  datatype Step =
    | Insert(block: seq<Row>)         // an insert block and its materialized views
    | Compact(i: nat, j: nat)         // a background merge of two parts
    | Stage(events: seq<Row>)         // stageRetentionSummaryRebuilds
    | DeleteRows                      // ALTER TABLE trail_events DELETE
    | ReadTasks(tasks: seq<Task>)     // SELECT ... LIMIT 1000
    | Statement(order: seq<Row>)      // the next rebuild statement; order is how it reads trail_events
    | RemoveTasks                     // ALTER TABLE ... DELETE WHERE identity IN
    | Crash

  const LIMIT: nat := 1000

  function Start(): State
  {
    State({}, [], {}, Idle, {})
  }

  // ---- Blocks ----

  function InGroup(k: Kind, g: Group, rows: seq<Row>): seq<Row>
  {
    if rows == [] then []
    else (if GroupOf(k, rows[0]) == g then [rows[0]] else []) + InGroup(k, g, rows[1..])
  }

  function Outside(k: Kind, g: Group, rows: seq<Row>): (rest: seq<Row>)
    ensures |rest| <= |rows|
    ensures rows != [] && GroupOf(k, rows[0]) == g ==> |rest| < |rows|
  {
    if rows == [] then []
    else (if GroupOf(k, rows[0]) != g then [rows[0]] else []) + Outside(k, g, rows[1..])
  }

  /** SELECT ... WHERE identity != 0 GROUP BY identity, service, environment */
  function GroupParts(k: Kind, rows: seq<Row>): seq<Part>
    decreases |rows|
  {
    if rows == [] then []
    else
      var g := GroupOf(k, rows[0]);
      var mine := InGroup(k, g, rows);
      (if g.identity != 0 then [Part(g, Aggregate(k, mine), RowSet(mine))] else []) + GroupParts(k, Outside(k, g, rows))
  }

  function TasksOf(rows: set<Row>): set<Task>
  {
    (set r | r in rows && r.flow != 0 :: Task(Flow, r.flow)) + (set r | r in rows && r.execution != 0 :: Task(Execution, r.execution))
  }

  // ---- Rebuilding ----

  function Identities(tasks: seq<Task>, k: Kind): set<Id>
  {
    set i | 0 <= i < |tasks| && tasks[i].kind == k :: tasks[i].identity
  }

  function Chosen(live: set<Row>, k: Kind, ids: set<Id>): set<Row>
  {
    set r | r in live && IdentityOf(k, r) in ids
  }

  function Drop(parts: seq<Part>, k: Kind, ids: set<Id>): seq<Part>
  {
    if parts == [] then []
    else (if parts[0].group.kind == k && parts[0].group.identity in ids then [] else [parts[0]]) + Drop(parts[1..], k, ids)
  }

  function Compacted(parts: seq<Part>, i: nat, j: nat): seq<Part>
    requires i < j < |parts| && parts[i].group == parts[j].group
    requires parts[i].state.picks.Keys == parts[j].state.picks.Keys == PicksOf(parts[i].group.kind)
  {
    var p, q := parts[i], parts[j];
    parts[..i] + [Part(p.group, Merge(p.group.kind, p.state, q.state), p.rows + q.rows)] + parts[i + 1..j] + parts[j + 1..]
  }

  predicate DistinctTasks(tasks: seq<Task>)
  {
    forall i, j :: 0 <= i < j < |tasks| ==> tasks[i] != tasks[j]
  }

  /** ORDER BY kind, identity: the kind is an enumeration with flow before execution. */
  predicate TaskBefore(a: Task, b: Task)
  {
    (a.kind.Flow? && b.kind.Execution?) || (a.kind == b.kind && a.identity < b.identity)
  }

  predicate Ordered(tasks: seq<Task>)
  {
    forall i, j :: 0 <= i < j < |tasks| ==> TaskBefore(tasks[i], tasks[j])
  }

  /** SELECT ... FINAL ORDER BY kind, identity LIMIT 1000: the first staged tasks. */
  predicate Readable(staged: set<Task>, tasks: seq<Task>)
  {
    && Ordered(tasks) && (forall i :: 0 <= i < |tasks| ==> tasks[i] in staged)
    && (forall t, i :: t in staged && t !in tasks && 0 <= i < |tasks| ==> TaskBefore(tasks[i], t))
    && |tasks| == (if |staged| < LIMIT then |staged| else LIMIT)
  }

  // ---- Steps ----

  predicate Enabled(s: State, a: Step)
  {
    match a
    case Insert(block) => Consistent(s.seen + RowSet(block))
    case Compact(i, j) =>
      i < j < |s.parts| && s.parts[i].group == s.parts[j].group
      && s.parts[i].state.picks.Keys == s.parts[j].state.picks.Keys == PicksOf(s.parts[i].group.kind)
    case Stage(events) => s.phase.Idle? && RowSet(events) <= s.live
    case DeleteRows => s.phase.Staged?
    case ReadTasks(tasks) => s.phase.Idle? && tasks != [] && Readable(s.staged, tasks)
    case Statement(order) =>
      s.phase.Rebuilding? && !s.phase.progress.Rebuilt?
      && RowSet(order) == (match s.phase.progress
                           case Read => {}
                           case FlowsDropped => Chosen(s.live, Flow, Identities(s.phase.tasks, Flow))
                           case FlowsAdded => {}
                           case _ => Chosen(s.live, Execution, Identities(s.phase.tasks, Execution)))
    case RemoveTasks => s.phase.Rebuilding? && s.phase.progress.Rebuilt?
    case Crash => true
  }

  function RunStatement(s: State, order: seq<Row>): State
    requires s.phase.Rebuilding? && !s.phase.progress.Rebuilt?
  {
    var tasks := s.phase.tasks;
    match s.phase.progress
    case Read => s.(parts := Drop(s.parts, Flow, Identities(tasks, Flow)), phase := Rebuilding(tasks, FlowsDropped))
    case FlowsDropped => s.(parts := s.parts + GroupParts(Flow, order), phase := Rebuilding(tasks, FlowsAdded))
    case FlowsAdded => s.(parts := Drop(s.parts, Execution, Identities(tasks, Execution)), phase := Rebuilding(tasks, ExecutionsDropped))
    case _ => s.(parts := s.parts + GroupParts(Execution, order), phase := Rebuilding(tasks, Rebuilt))
  }

  /** Tasks are removed by identity, whatever their kind. */
  function Unfinished(staged: set<Task>, tasks: seq<Task>): set<Task>
  {
    set t | t in staged && t.identity !in Identities(tasks, Flow) + Identities(tasks, Execution)
  }

  /** DELETE WHERE event_id IN */
  function Surviving(live: set<Row>, doomed: set<Row>): set<Row>
  {
    set r | r in live && r.id !in (set q | q in doomed :: q.id)
  }

  function Next(s: State, a: Step): State
    requires Enabled(s, a)
  {
    match a
    case Insert(block) =>
      s.(live := s.live + RowSet(block), seen := s.seen + RowSet(block),
         parts := s.parts + GroupParts(Flow, block) + GroupParts(Execution, block))
    case Compact(i, j) => s.(parts := Compacted(s.parts, i, j))
    case Stage(events) => s.(staged := s.staged + TasksOf(RowSet(events)), phase := Staged(RowSet(events)))
    case DeleteRows => s.(live := Surviving(s.live, s.phase.doomed), phase := Idle)
    case ReadTasks(tasks) => s.(phase := Rebuilding(tasks, Read))
    case Statement(order) => RunStatement(s, order)
    case RemoveTasks => s.(staged := Unfinished(s.staged, s.phase.tasks), phase := Idle)
    case Crash => s.(phase := Idle)
  }

  predicate CanRun(s: State, steps: seq<Step>)
    decreases |steps|
  {
    steps == [] || (Enabled(s, steps[0]) && CanRun(Next(s, steps[0]), steps[1..]))
  }

  function Reached(s: State, steps: seq<Step>): State
    requires CanRun(s, steps)
    decreases |steps|
  {
    if steps == [] then s else Reached(Next(s, steps[0]), steps[1..])
  }

  // ---- What the parts of a group cover ----

  ghost function Gathered(parts: seq<Part>, g: Group): set<Row>
  {
    if parts == [] then {} else (if parts[0].group == g then parts[0].rows else {}) + Gathered(parts[1..], g)
  }

  ghost function LiveIn(live: set<Row>, g: Group): set<Row>
  {
    set r | r in live && GroupOf(g.kind, r) == g
  }

  ghost predicate Of(g: Group, t: Task)
  {
    g.kind == t.kind && g.identity == t.identity
  }

  /** The summary rows of the flow or execution were computed from its live events. */
  ghost predicate Agrees(s: State, t: Task)
  {
    forall g :: Of(g, t) ==> Gathered(s.parts, g) == LiveIn(s.live, g)
  }

  /** They were computed from some of its live events. */
  ghost predicate Within(s: State, t: Task)
  {
    forall g :: Of(g, t) ==> Gathered(s.parts, g) <= LiveIn(s.live, g)
  }

  ghost predicate PartOk(p: Part)
  {
    && Describes(p.group.kind, p.rows, p.state)
    && forall r :: r in p.rows ==> GroupOf(p.group.kind, r) == p.group
  }

  ghost predicate PartsInv(s: State)
  {
    && Consistent(s.seen) && s.live <= s.seen
    && AllOk(s.parts, s.seen)
  }

  ghost predicate AllOk(parts: seq<Part>, seen: set<Row>)
  {
    forall i :: 0 <= i < |parts| ==> PartOk(parts[i]) && parts[i].rows <= seen
  }

  /** The crash invariant: a flow or execution agrees or is staged. */
  ghost predicate CrashInv(s: State)
  {
    forall t: Task :: t.identity != 0 && t !in s.staged ==> Agrees(s, t)
  }

  ghost predicate TasksInv(s: State)
  {
    s.staged <= TasksOf(s.seen)
  }

  /** The events about to be deleted belong to staged flows and executions. */
  ghost predicate DoomedInv(s: State)
  {
    s.phase.Staged? ==> s.phase.doomed <= s.seen && TasksOf(s.phase.doomed) <= s.staged
  }

  predicate Done(p: Progress, k: Kind)
  {
    if k.Flow? then !p.Read? && !p.FlowsDropped? else p.Rebuilt?
  }

  predicate Dropped(p: Progress, k: Kind)
  {
    if k.Flow? then !p.Read? else p.ExecutionsDropped? || p.Rebuilt?
  }

  ghost predicate RebuildInv(s: State)
  {
    s.phase.Rebuilding? ==>
      && Readable(s.staged, s.phase.tasks)
      && forall t :: t in s.phase.tasks ==>
           && (Dropped(s.phase.progress, t.kind) ==> Within(s, t))
           && (Done(s.phase.progress, t.kind) ==> Agrees(s, t))
  }

  ghost predicate Inv(s: State)
  {
    PartsInv(s) && CrashInv(s) && TasksInv(s) && DoomedInv(s) && RebuildInv(s)
  }

  // ---- Parts ----

  lemma {:induction false} GatherConcat(a: seq<Part>, b: seq<Part>, g: Group)
    ensures Gathered(a + b, g) == Gathered(a, g) + Gathered(b, g)
  {
    if a == [] {
      assert a + b == b;
    } else {
      GatherConcat(a[1..], b, g);
      assert (a + b)[1..] == a[1..] + b;
    }
  }

  lemma {:induction false} InGroupRows(k: Kind, g: Group, rows: seq<Row>)
    ensures RowSet(InGroup(k, g, rows)) == set r | r in rows && GroupOf(k, r) == g
    ensures RowSet(Outside(k, g, rows)) == set r | r in rows && GroupOf(k, r) != g
  {
    if rows != [] {
      var rest := rows[1..];
      InGroupRows(k, g, rest);
      assert rows == [rows[0]] + rest;
      forall r
        ensures r in InGroup(k, g, rows) <==> r in rows && GroupOf(k, r) == g
        ensures r in Outside(k, g, rows) <==> r in rows && GroupOf(k, r) != g
      {
        assert r in RowSet(InGroup(k, g, rest)) <==> r in rest && GroupOf(k, r) == g;
        assert r in RowSet(Outside(k, g, rest)) <==> r in rest && GroupOf(k, r) != g;
      }
    }
  }

  lemma GroupPartOk(k: Kind, g: Group, rows: seq<Row>)
    requires g.kind == k
    ensures PartOk(Part(g, Aggregate(k, InGroup(k, g, rows)), RowSet(InGroup(k, g, rows))))
  {
    hide Describes, Aggregate;
    InGroupRows(k, g, rows);
    AggregateDescribes(k, InGroup(k, g, rows));
  }

  lemma {:induction false} GroupPartsOk(k: Kind, rows: seq<Row>, seen: set<Row>)
    requires RowSet(rows) <= seen
    ensures AllOk(GroupParts(k, rows), seen)
    decreases |rows|
  {
    hide PartOk, Aggregate;
    if rows != [] {
      var g := GroupOf(k, rows[0]);
      InGroupRows(k, g, rows);
      GroupPartOk(k, g, rows);
      GroupPartsOk(k, Outside(k, g, rows), seen);
    }
  }

  /** A view gathers, for each group, exactly the rows of the block in that group. */
  lemma {:induction false} GroupPartsGather(k: Kind, rows: seq<Row>, g: Group)
    requires g.identity != 0
    ensures Gathered(GroupParts(k, rows), g) == (if g.kind == k then LiveIn(RowSet(rows), g) else {})
    decreases |rows|
  {
    hide Aggregate;
    if rows != [] {
      var h := GroupOf(k, rows[0]);
      var mine, rest := InGroup(k, h, rows), Outside(k, h, rows);
      InGroupRows(k, h, rows);
      GroupPartsGather(k, rest, g);
      var head := if h.identity != 0 then [Part(h, Aggregate(k, mine), RowSet(mine))] else [];
      GatherConcat(head, GroupParts(k, rest), g);
      assert Gathered(head, g) == (if h == g then RowSet(mine) else {}) by { if head != [] { assert head[1..] == []; } }
    }
  }

  lemma {:induction false} DropFacts(parts: seq<Part>, k: Kind, ids: set<Id>, g: Group, seen: set<Row>)
    ensures Gathered(Drop(parts, k, ids), g) == (if g.kind == k && g.identity in ids then {} else Gathered(parts, g))
    ensures AllOk(parts, seen) ==> AllOk(Drop(parts, k, ids), seen)
  {
    hide PartOk;
    if parts != [] {
      DropFacts(parts[1..], k, ids, g, seen);
      assert AllOk(parts, seen) ==> AllOk(parts[1..], seen) by {
        assert forall i :: 0 <= i < |parts[1..]| ==> parts[1..][i] == parts[i + 1];
      }
      var head := if parts[0].group.kind == k && parts[0].group.identity in ids then [] else [parts[0]];
      assert Drop(parts, k, ids) == head + Drop(parts[1..], k, ids);
      GatherConcat(head, Drop(parts[1..], k, ids), g);
      assert Gathered(head, g) == (if head != [] && parts[0].group == g then parts[0].rows else {}) by { if head != [] { assert head[1..] == []; } }
    }
  }

  lemma CompactGather(parts: seq<Part>, i: nat, j: nat, g: Group)
    requires i < j < |parts| && parts[i].group == parts[j].group
    requires parts[i].state.picks.Keys == parts[j].state.picks.Keys == PicksOf(parts[i].group.kind)
    ensures Gathered(Compacted(parts, i, j), g) == Gathered(parts, g)
  {
    hide Merge;
    var a, p, b, q, c := parts[..i], parts[i], parts[i + 1..j], parts[j], parts[j + 1..];
    var m := Part(p.group, Merge(p.group.kind, p.state, q.state), p.rows + q.rows);
    assert parts == a + [p] + b + [q] + c;
    assert Compacted(parts, i, j) == a + [m] + b + c;
    Gather3(a, p, b, [q] + c, g);
    Gather3(a, m, b, c, g);
    GatherConcat([q], c, g);
    GatherOne(q, g);
    assert a + [p] + b + ([q] + c) == a + [p] + b + [q] + c;
  }

  lemma GatherOne(p: Part, g: Group)
    ensures Gathered([p], g) == if p.group == g then p.rows else {}
  {
  }

  lemma Gather3(a: seq<Part>, p: Part, b: seq<Part>, c: seq<Part>, g: Group)
    ensures Gathered(a + [p] + b + c, g)
         == Gathered(a, g) + (if p.group == g then p.rows else {}) + Gathered(b, g) + Gathered(c, g)
  {
    GatherConcat(a + [p] + b, c, g);
    GatherConcat(a + [p], b, g);
    GatherConcat(a, [p], g);
    GatherOne(p, g);
  }

  lemma CompactOk(parts: seq<Part>, i: nat, j: nat, seen: set<Row>)
    requires i < j < |parts| && parts[i].group == parts[j].group && AllOk(parts, seen)
    ensures parts[i].state.picks.Keys == parts[j].state.picks.Keys == PicksOf(parts[i].group.kind)
    ensures AllOk(Compacted(parts, i, j), seen)
  {
    hide Merge, IsPick, IsFirst, IsLast, IsIds, IsFlows, IsAttempt;
    var p, q := parts[i], parts[j];
    assert PartOk(p) && PartOk(q);
    DescribesJoin(p.group.kind, p.rows, q.rows, p.state, q.state);
    assert PartOk(Part(p.group, Merge(p.group.kind, p.state, q.state), p.rows + q.rows));
  }

  // ---- Inserting ----

  lemma InsertGather(s: State, block: seq<Row>, g: Group)
    requires Enabled(s, Insert(block)) && g.identity != 0
    ensures var t := Next(s, Insert(block));
            && Gathered(t.parts, g) == Gathered(s.parts, g) + LiveIn(RowSet(block), g)
            && LiveIn(t.live, g) == LiveIn(s.live, g) + LiveIn(RowSet(block), g)
  {
    hide GroupParts;
    GatherConcat(s.parts + GroupParts(Flow, block), GroupParts(Execution, block), g);
    GatherConcat(s.parts, GroupParts(Flow, block), g);
    GroupPartsGather(Flow, block, g);
    GroupPartsGather(Execution, block, g);
  }

  lemma AllOkGrows(parts: seq<Part>, more: seq<Part>, seen: set<Row>, seen': set<Row>)
    requires AllOk(parts, seen) && seen <= seen' && AllOk(more, seen')
    ensures AllOk(parts + more, seen')
  {
  }

  lemma InsertKeepsParts(s: State, block: seq<Row>)
    requires PartsInv(s) && Enabled(s, Insert(block))
    ensures PartsInv(Next(s, Insert(block)))
  {
    hide AllOk, GroupParts;
    var seen := s.seen + RowSet(block);
    GroupPartsOk(Flow, block, seen);
    GroupPartsOk(Execution, block, seen);
    AllOkGrows(s.parts, GroupParts(Flow, block), s.seen, seen);
    AllOkGrows(s.parts + GroupParts(Flow, block), GroupParts(Execution, block), seen, seen);
  }

  lemma InsertKeepsTask(s: State, block: seq<Row>, t: Task)
    requires Enabled(s, Insert(block)) && t.identity != 0
    ensures Agrees(s, t) ==> Agrees(Next(s, Insert(block)), t)
    ensures Within(s, t) ==> Within(Next(s, Insert(block)), t)
  {
    hide Enabled, Next;
    forall g | Of(g, t)
      ensures var n := Next(s, Insert(block));
              && Gathered(n.parts, g) == Gathered(s.parts, g) + LiveIn(RowSet(block), g)
              && LiveIn(n.live, g) == LiveIn(s.live, g) + LiveIn(RowSet(block), g)
    {
      InsertGather(s, block, g);
    }
  }

  lemma TaskNonZero(rows: set<Row>, t: Task)
    requires t in TasksOf(rows)
    ensures t.identity != 0
  {
  }

  lemma InsertKeeps(s: State, block: seq<Row>)
    requires Inv(s) && Enabled(s, Insert(block))
    ensures Inv(Next(s, Insert(block)))
  {
    hide Agrees, Within, PartsInv, GroupParts;
    var n := Next(s, Insert(block));
    InsertKeepsParts(s, block);
    forall t: Task | t.identity != 0
      ensures (Agrees(s, t) ==> Agrees(n, t)) && (Within(s, t) ==> Within(n, t))
    {
      InsertKeepsTask(s, block, t);
    }
    forall t | t in s.staged ensures t.identity != 0 { TaskNonZero(s.seen, t); }
  }

  // ---- Merging parts ----

  lemma SameGathered(s: State, n: State, t: Task)
    requires n.live == s.live && forall g :: Of(g, t) ==> Gathered(n.parts, g) == Gathered(s.parts, g)
    ensures Agrees(s, t) <==> Agrees(n, t)
    ensures Within(s, t) <==> Within(n, t)
  {
  }

  lemma CompactKeeps(s: State, i: nat, j: nat)
    requires Inv(s) && Enabled(s, Compact(i, j))
    ensures Inv(Next(s, Compact(i, j)))
  {
    hide Agrees, Within, AllOk, Compacted;
    var n := Next(s, Compact(i, j));
    CompactOk(s.parts, i, j, s.seen);
    forall t ensures (Agrees(s, t) <==> Agrees(n, t)) && (Within(s, t) <==> Within(n, t)) {
      forall g | Of(g, t) ensures Gathered(n.parts, g) == Gathered(s.parts, g) { CompactGather(s.parts, i, j, g); }
      SameGathered(s, n, t);
    }
  }

  // ---- Staging and deleting ----

  lemma StageKeeps(s: State, events: seq<Row>)
    requires Inv(s) && Enabled(s, Stage(events))
    ensures Inv(Next(s, Stage(events)))
  {
  }

  lemma DeleteAgrees(s: State, t: Task)
    requires PartsInv(s) && DoomedInv(s) && s.phase.Staged? && t.identity != 0 && t !in s.staged
    ensures forall g :: Of(g, t) ==> LiveIn(Surviving(s.live, s.phase.doomed), g) == LiveIn(s.live, g)
  {
    forall g, r | Of(g, t) && r in LiveIn(s.live, g) ensures r in Surviving(s.live, s.phase.doomed) {
      assert t in TasksOf({r});
      forall q | q in s.phase.doomed ensures r.id == q.id ==> r == q && TasksOf({q}) <= s.staged {
        assert TasksOf({q}) <= TasksOf(s.phase.doomed);
      }
    }
  }

  lemma DeleteKeeps(s: State)
    requires Inv(s) && Enabled(s, DeleteRows)
    ensures Inv(Next(s, DeleteRows))
  {
    hide AllOk, Surviving, Gathered, LiveIn;
    var n := Next(s, DeleteRows);
    assert n.live <= s.live by { SurvivingLess(s.live, s.phase.doomed); }
    forall t: Task | t.identity != 0 && t !in n.staged ensures Agrees(n, t) {
      DeleteAgrees(s, t);
      assert Agrees(s, t);
    }
  }

  lemma SurvivingLess(live: set<Row>, doomed: set<Row>)
    ensures Surviving(live, doomed) <= live
  {
  }

  // ---- Rebuilding ----

  lemma IdentitiesOf(tasks: seq<Task>, t: Task)
    ensures t.identity in Identities(tasks, t.kind) <==> t in tasks
  {
  }

  lemma DropStatement(s: State, n: State, k: Kind, tasks: seq<Task>, t: Task)
    requires n.live == s.live && n.parts == Drop(s.parts, k, Identities(tasks, k))
    ensures t.kind == k && t in tasks ==> Within(n, t)
    ensures !(t.kind == k && t in tasks) ==> (Agrees(s, t) <==> Agrees(n, t)) && (Within(s, t) <==> Within(n, t))
  {
    IdentitiesOf(tasks, t);
    forall g | Of(g, t)
      ensures Gathered(n.parts, g) == (if t.kind == k && t in tasks then {} else Gathered(s.parts, g))
    {
      DropFacts(s.parts, k, Identities(tasks, k), g, {});
    }
  }

  lemma AddStatement(s: State, n: State, k: Kind, tasks: seq<Task>, order: seq<Row>, t: Task)
    requires n.live == s.live && n.parts == s.parts + GroupParts(k, order) && t.identity != 0
    requires RowSet(order) == Chosen(s.live, k, Identities(tasks, k))
    ensures t.kind == k && t in tasks && Within(s, t) ==> Agrees(n, t) && Within(n, t)
    ensures !(t.kind == k && t in tasks) ==> (Agrees(s, t) <==> Agrees(n, t)) && (Within(s, t) <==> Within(n, t))
  {
    hide GroupParts;
    IdentitiesOf(tasks, t);
    forall g | Of(g, t)
      ensures Gathered(n.parts, g) == Gathered(s.parts, g) + (if t.kind == k && t in tasks then LiveIn(s.live, g) else {})
    {
      GatherConcat(s.parts, GroupParts(k, order), g);
      GroupPartsGather(k, order, g);
    }
  }

  lemma StatementParts(s: State, order: seq<Row>)
    requires PartsInv(s) && Enabled(s, Statement(order))
    ensures PartsInv(Next(s, Statement(order)))
  {
    hide AllOk, Gathered, Drop, GroupParts;
    var tasks, any := s.phase.tasks, Group(Flow, 0, "", "");
    DropFacts(s.parts, Flow, Identities(tasks, Flow), any, s.seen);
    DropFacts(s.parts, Execution, Identities(tasks, Execution), any, s.seen);
    assert RowSet(order) <= s.seen;
    GroupPartsOk(Flow, order, s.seen);
    GroupPartsOk(Execution, order, s.seen);
    AllOkGrows(s.parts, GroupParts(Flow, order), s.seen, s.seen);
    AllOkGrows(s.parts, GroupParts(Execution, order), s.seen, s.seen);
  }

  lemma StatementTask(s: State, order: seq<Row>, t: Task)
    requires Enabled(s, Statement(order)) && t.identity != 0
    ensures var n := Next(s, Statement(order)); var p, q := s.phase.progress, n.phase.progress; var mine := t in s.phase.tasks;
            && (!mine && Agrees(s, t) ==> Agrees(n, t))
            && (mine && Dropped(q, t.kind) && (Dropped(p, t.kind) ==> Within(s, t)) ==> Within(n, t))
            && (mine && Done(q, t.kind) && (Done(p, t.kind) ==> Agrees(s, t)) && (Dropped(p, t.kind) ==> Within(s, t)) ==> Agrees(n, t))
  {
    hide Agrees, Within, Drop, GroupParts, Chosen, Identities;
    var n, tasks := Next(s, Statement(order)), s.phase.tasks;
    match s.phase.progress
    case Read => DropStatement(s, n, Flow, tasks, t);
    case FlowsDropped => AddStatement(s, n, Flow, tasks, order, t);
    case FlowsAdded => DropStatement(s, n, Execution, tasks, t);
    case ExecutionsDropped => AddStatement(s, n, Execution, tasks, order, t);
  }

  lemma StatementKeeps(s: State, order: seq<Row>)
    requires Inv(s) && Enabled(s, Statement(order))
    ensures Inv(Next(s, Statement(order)))
  {
    hide Agrees, Within, Drop, GroupParts, PartsInv, Chosen, Identities;
    StatementParts(s, order);
    var n := Next(s, Statement(order));
    forall t | t in s.staged ensures t.identity != 0 { TaskNonZero(s.seen, t); }
    forall t: Task | t.identity != 0 && t !in n.staged ensures Agrees(n, t) { StatementTask(s, order, t); }
    forall t | t in n.phase.tasks
      ensures Dropped(n.phase.progress, t.kind) ==> Within(n, t)
      ensures Done(n.phase.progress, t.kind) ==> Agrees(n, t)
    {
      StatementTask(s, order, t);
    }
  }

  // ---- Finishing ----

  function Twin(t: Task): Task
  {
    Task(if t.kind.Flow? then Execution else Flow, t.identity)
  }

  /** A staged task that was not read, but whose identity was, under the other kind. */
  ghost predicate UnreadTwin(staged: set<Task>, tasks: seq<Task>, t: Task)
  {
    t in staged && t !in tasks && Twin(t) in tasks
  }

  /** What a caller can check on the staged set before the tasks are removed. */
  ghost predicate NoUnreadTwin(staged: set<Task>, tasks: seq<Task>)
  {
    forall t :: !UnreadTwin(staged, tasks, t)
  }

  /** What removing by identity takes away: the tasks that were read and their twins. */
  lemma RemovedOrTwin(staged: set<Task>, tasks: seq<Task>, t: Task)
    ensures t in staged && t !in Unfinished(staged, tasks) <==> t in staged && (t in tasks || Twin(t) in tasks)
  {
    IdentitiesOf(tasks, t);
    IdentitiesOf(tasks, Twin(t));
  }

  /** Without an unread twin the removal keeps the invariant. */
  lemma RemoveKeeps(s: State)
    requires Inv(s) && Enabled(s, RemoveTasks) && NoUnreadTwin(s.staged, s.phase.tasks)
    ensures Inv(Next(s, RemoveTasks))
  {
    hide AllOk, Agrees, Unfinished;
    var n := Next(s, RemoveTasks);
    forall t ensures Agrees(n, t) <==> Agrees(s, t) { SameGathered(s, n, t); }
    forall t: Task | t.identity != 0 && t !in n.staged ensures Agrees(n, t) {
      RemovedOrTwin(s.staged, s.phase.tasks, t);
      assert !UnreadTwin(s.staged, s.phase.tasks, t);
    }
    assert n.staged <= s.staged by { UnfinishedLess(s.staged, s.phase.tasks); }
  }

  lemma UnfinishedLess(staged: set<Task>, tasks: seq<Task>)
    ensures Unfinished(staged, tasks) <= staged
  {
  }

  /** Flow and execution identifiers are drawn from different values. */
  ghost predicate Separate(rows: set<Row>)
  {
    forall r, q :: r in rows && q in rows && r.flow != 0 ==> r.flow != q.execution
  }

  lemma TwinsApart(rows: set<Row>, t: Task)
    requires Separate(rows) && t in TasksOf(rows)
    ensures Twin(t) !in TasksOf(rows)
  {
  }

  /** There is none when flow and execution identifiers are disjoint. */
  lemma SeparateHasNoTwin(s: State)
    requires Inv(s) && s.phase.Rebuilding? && Separate(s.seen)
    ensures NoUnreadTwin(s.staged, s.phase.tasks)
  {
    forall t ensures !UnreadTwin(s.staged, s.phase.tasks, t) {
      if t in s.staged { TwinsApart(s.seen, t); }
    }
  }

  /** Nor when at most a thousand tasks are staged, whatever the identifiers. */
  lemma FewTasksHaveNoTwin(staged: set<Task>, tasks: seq<Task>)
    requires Readable(staged, tasks) && |staged| <= LIMIT
    ensures NoUnreadTwin(staged, tasks)
  {
    ReadsAll(staged, tasks);
  }

  /** And an unread twin is always an execution, since flows are read first. */
  lemma UnreadTwinIsExecution(staged: set<Task>, tasks: seq<Task>, t: Task)
    requires Readable(staged, tasks) && UnreadTwin(staged, tasks, t)
    ensures t.kind.Execution?
  {
    var i :| 0 <= i < |tasks| && tasks[i] == Twin(t);
    assert TaskBefore(tasks[i], t);
  }

  function TaskSet(tasks: seq<Task>): set<Task>
  {
    set i | 0 <= i < |tasks| :: tasks[i]
  }

  lemma {:induction false} TaskSetSize(tasks: seq<Task>)
    requires DistinctTasks(tasks)
    ensures |TaskSet(tasks)| == |tasks|
  {
    if tasks != [] {
      var n := |tasks| - 1;
      TaskSetSize(tasks[..n]);
      assert TaskSet(tasks) == TaskSet(tasks[..n]) + {tasks[n]};
      assert tasks[n] !in TaskSet(tasks[..n]);
    }
  }

  lemma SubsetSize(a: set<Task>, b: set<Task>)
    requires a <= b
    ensures |a| <= |b| && (|a| == |b| ==> a == b)
  {
    assert b == a + (b - a);
    assert |b| == |a| + |b - a|;
  }

  lemma OrderedDistinct(tasks: seq<Task>)
    requires Ordered(tasks)
    ensures DistinctTasks(tasks)
  {
    forall i, j | 0 <= i < j < |tasks| ensures tasks[i] != tasks[j] { assert TaskBefore(tasks[i], tasks[j]); }
  }

  lemma ReadsAll(staged: set<Task>, tasks: seq<Task>)
    requires Readable(staged, tasks) && |staged| <= LIMIT
    ensures forall t :: t in staged ==> t in tasks
  {
    OrderedDistinct(tasks);
    TaskSetSize(tasks);
    SubsetSize(TaskSet(tasks), staged);
  }

  // ---- Every run ----

  lemma CalmKeeps(s: State, n: State)
    requires Inv(s) && n == s.(phase := n.phase)
    requires n.phase.Idle? || (n.phase.Rebuilding? && n.phase.progress.Read? && Readable(s.staged, n.phase.tasks))
    ensures Inv(n)
  {
  }

  /** Tasks are only removed when none of them has an unread twin. */
  ghost predicate Guarded(s: State, a: Step)
  {
    a.RemoveTasks? && s.phase.Rebuilding? ==> NoUnreadTwin(s.staged, s.phase.tasks)
  }

  ghost predicate GuardedRun(s: State, steps: seq<Step>)
    requires CanRun(s, steps)
    decreases |steps|
  {
    steps == [] || (Guarded(s, steps[0]) && GuardedRun(Next(s, steps[0]), steps[1..]))
  }

  lemma StepKeeps(s: State, a: Step)
    requires Inv(s) && Enabled(s, a) && Guarded(s, a)
    ensures Inv(Next(s, a))
  {
    hide Inv;
    match a
    case Insert(block) => InsertKeeps(s, block);
    case Compact(i, j) => CompactKeeps(s, i, j);
    case Stage(events) => StageKeeps(s, events);
    case DeleteRows => DeleteKeeps(s);
    case ReadTasks(tasks) => CalmKeeps(s, Next(s, a));
    case Statement(order) => StatementKeeps(s, order);
    case RemoveTasks => RemoveKeeps(s);
    case Crash => CalmKeeps(s, Next(s, a));
  }

  lemma SeenStep(s: State, a: Step)
    requires Enabled(s, a)
    ensures s.seen <= Next(s, a).seen
  {
  }

  lemma {:induction false} SeenGrows(s: State, steps: seq<Step>)
    requires CanRun(s, steps)
    ensures s.seen <= Reached(s, steps).seen
    decreases |steps|
  {
    hide Enabled, Next;
    if steps != [] {
      SeenStep(s, steps[0]);
      SeenGrows(Next(s, steps[0]), steps[1..]);
    }
  }

  lemma {:induction false} RunKeeps(s: State, steps: seq<Step>)
    requires Inv(s) && CanRun(s, steps) && GuardedRun(s, steps)
    ensures Inv(Reached(s, steps))
    decreases |steps|
  {
    hide Enabled, Next, Inv, Guarded;
    if steps != [] {
      StepKeeps(s, steps[0]);
      RunKeeps(Next(s, steps[0]), steps[1..]);
    }
  }

  /** Disjoint identifiers guard every run. */
  lemma {:induction false} SeparateRunIsGuarded(s: State, steps: seq<Step>)
    requires Inv(s) && CanRun(s, steps) && Separate(Reached(s, steps).seen)
    ensures GuardedRun(s, steps)
    decreases |steps|
  {
    hide Enabled, Next, Inv;
    if steps != [] {
      SeenGrows(s, steps);
      if steps[0].RemoveTasks? && s.phase.Rebuilding? { SeparateHasNoTwin(s); }
      StepKeeps(s, steps[0]);
      SeparateRunIsGuarded(Next(s, steps[0]), steps[1..]);
    }
  }

  lemma StartInv()
    ensures Inv(Start())
  {
  }

  // ---- What a query sees ----

  /** SELECT ...Merge(...) GROUP BY: all parts of a group, in the order they are found. */
  function Query(parts: seq<Part>, g: Group): (a: Agg)
    requires forall i :: 0 <= i < |parts| ==> parts[i].state.picks.Keys == PicksOf(parts[i].group.kind)
    ensures a.picks.Keys == PicksOf(g.kind)
  {
    if parts == [] then Empty(g.kind)
    else if parts[0].group == g then Merge(g.kind, parts[0].state, Query(parts[1..], g))
    else Query(parts[1..], g)
  }

  lemma {:induction false} QueryDescribes(parts: seq<Part>, seen: set<Row>, g: Group)
    requires AllOk(parts, seen)
    ensures forall i :: 0 <= i < |parts| ==> parts[i].state.picks.Keys == PicksOf(parts[i].group.kind)
    ensures Describes(g.kind, Gathered(parts, g), Query(parts, g))
  {
    hide IsPick, IsFirst, IsLast, IsIds, IsFlows, IsAttempt, Merge, Empty;
    if parts == [] {
      EmptyDescribes(g.kind);
    } else {
      var rest := parts[1..];
      assert AllOk(rest, seen) by { assert forall i :: 0 <= i < |rest| ==> rest[i] == parts[i + 1]; }
      QueryDescribes(rest, seen, g);
      assert PartOk(parts[0]);
      forall i | 0 <= i < |parts| ensures parts[i].state.picks.Keys == PicksOf(parts[i].group.kind) { assert PartOk(parts[i]); }
      if parts[0].group == g {
        DescribesJoin(g.kind, parts[0].rows, Gathered(rest, g), parts[0].state, Query(rest, g));
      } else {
        assert Gathered(parts, g) == Gathered(rest, g);
      }
    }
  }

  lemma QueryAgrees(s: State, g: Group, order: seq<Row>)
    requires PartsInv(s) && Gathered(s.parts, g) == LiveIn(s.live, g) && RowSet(order) == LiveIn(s.live, g)
    ensures forall i :: 0 <= i < |s.parts| ==> s.parts[i].state.picks.Keys == PicksOf(s.parts[i].group.kind)
    ensures Query(s.parts, g) == Aggregate(g.kind, order)
  {
    hide Describes, AllOk, Query, Aggregate, Gathered;
    QueryDescribes(s.parts, s.seen, g);
    AggregateDescribes(g.kind, order);
    assert Consistent(RowSet(order));
    DescribesUnique(g.kind, RowSet(order), Query(s.parts, g), Aggregate(g.kind, order));
  }

  /** In every state of a guarded run, for each non-zero flow or execution that is not
      staged, the merged summary of each of its groups is the aggregate over its live events. */
  lemma {:induction false} SummariesAgree(steps: seq<Step>, g: Group, order: seq<Row>)
    requires CanRun(Start(), steps) && GuardedRun(Start(), steps) && g.identity != 0
    requires var s := Reached(Start(), steps);
             Task(g.kind, g.identity) !in s.staged && RowSet(order) == LiveIn(s.live, g)
    ensures var s := Reached(Start(), steps);
            && (forall i :: 0 <= i < |s.parts| ==> s.parts[i].state.picks.Keys == PicksOf(s.parts[i].group.kind))
            && Query(s.parts, g) == Aggregate(g.kind, order)
  {
    hide Enabled, Next, CanRun, Reached, Query, Aggregate, AllOk;
    StartInv();
    RunKeeps(Start(), steps);
    var s := Reached(Start(), steps);
    assert Agrees(s, Task(g.kind, g.identity));
    assert Of(g, Task(g.kind, g.identity));
    QueryAgrees(s, g, order);
  }

  // ---- Reconciling empties the staged set ----

  function Removals(steps: seq<Step>): nat
  {
    if steps == [] then 0 else (if steps[0].RemoveTasks? then 1 else 0) + Removals(steps[1..])
  }

  predicate NoStaging(steps: seq<Step>)
  {
    forall i :: 0 <= i < |steps| ==> !steps[i].Stage?
  }

  function Less(n: nat, m: nat): nat
  {
    if n < m then 0 else n - m
  }

  lemma RemoveShrinks(s: State)
    requires Inv(s) && Enabled(s, RemoveTasks)
    ensures |Next(s, RemoveTasks).staged| <= Less(|s.staged|, LIMIT)
  {
    hide AllOk, Agrees, Within;
    var tasks, left := s.phase.tasks, Next(s, RemoveTasks).staged;
    OrderedDistinct(tasks);
    TaskSetSize(tasks);
    forall t | t in left ensures t in s.staged - TaskSet(tasks) {
      IdentitiesOf(tasks, t);
    }
    SubsetSize(TaskSet(tasks), s.staged);
    SubsetSize(left, s.staged - TaskSet(tasks));
    assert |s.staged - TaskSet(tasks)| == |s.staged| - |tasks|;
  }

  lemma OtherStaged(s: State, a: Step)
    requires Enabled(s, a) && !a.Stage? && !a.RemoveTasks?
    ensures Next(s, a).staged == s.staged
  {
  }

  /** Each finished reconcile works off a thousand tasks, with inserts, merges and crashes
      in between; once enough have finished nothing is staged and everything agrees. */
  lemma {:induction false} ReconcilesWorkOff(s: State, steps: seq<Step>)
    requires Inv(s) && CanRun(s, steps) && NoStaging(steps) && GuardedRun(s, steps)
    ensures |Reached(s, steps).staged| <= Less(|s.staged|, LIMIT * Removals(steps))
    decreases |steps|
  {
    hide Enabled, Next, Inv, Guarded;
    if steps != [] {
      var a := steps[0];
      StepKeeps(s, a);
      if a.RemoveTasks? { RemoveShrinks(s); } else { OtherStaged(s, a); }
      ReconcilesWorkOff(Next(s, a), steps[1..]);
    }
  }

  /** So from every reachable state enough of them restore full agreement. */
  lemma {:induction false} ReconcilesRestoreAgreement(before: seq<Step>, steps: seq<Step>)
    requires CanRun(Start(), before) && CanRun(Reached(Start(), before), steps) && NoStaging(steps)
    requires GuardedRun(Start(), before) && GuardedRun(Reached(Start(), before), steps)
    requires |Reached(Start(), before).staged| <= LIMIT * Removals(steps)
    ensures var n := Reached(Reached(Start(), before), steps);
            n.staged == {} && forall t: Task :: t.identity != 0 ==> Agrees(n, t)
  {
    hide Enabled, Next, CanRun, Reached, Agrees, GuardedRun;
    var s := Reached(Start(), before);
    StartInv();
    RunKeeps(Start(), before);
    ReconcilesWorkOff(s, steps);
    RunKeeps(s, steps);
  }
}
