/** The aggregate states of the ClickHouse flow and execution summaries.  A state is what
    the -State combinators store for one group; merging is what the -Merge combinators
    and background merges do.  States of any split of the same events into insert blocks,
    merged in any order with any duplicates, equal the direct aggregate. */
module SummaryStates {
  import opened Common
  import opened Objects

  // ---- Rows and columns ----

  datatype Kind = Flow | Execution

  datatype Column =
    | EntityType | EntityId | ExecutionRef | FlowStatus | EventKind
    | ExecutionKind | ExecutionSource | ExecutionStatus | ParentExecution | RetryOf

  /** A row of trail_events; text holds its string columns, identifiers rendered as text. */
  datatype Row = Row(
    id: Id, time: int, service: string, environment: string, flow: Id, execution: Id, attempt: nat, text: map<Column, string>)

  function Read(r: Row, c: Column): string
  {
    if c in r.text then r.text[c] else ""
  }

  function IdentityOf(k: Kind, r: Row): Id
  {
    match k case Flow => r.flow case Execution => r.execution
  }

  datatype Group = Group(kind: Kind, identity: Id, service: string, environment: string)

  function GroupOf(k: Kind, r: Row): Group
  {
    Group(k, IdentityOf(k, r), r.service, r.environment)
  }

  // ---- argMin, argMax, argMaxIf ----

  /** One argMin or argMax column: ordered by (event_time, event_id), possibly only over
      rows whose value is not empty. */
  datatype Pick = Pick(column: Column, latest: bool, nonEmpty: bool)

  const FLOW_PICKS: set<Pick> := {
    Pick(EntityType, true, false), Pick(EntityId, true, false), Pick(ExecutionRef, true, false),
    Pick(FlowStatus, true, true), Pick(EventKind, false, false), Pick(EventKind, true, false)}

  const EXECUTION_PICKS: set<Pick> := {
    Pick(ExecutionKind, true, true), Pick(ExecutionSource, true, true), Pick(ExecutionStatus, true, true),
    Pick(ParentExecution, true, false), Pick(RetryOf, true, false)}

  function PicksOf(k: Kind): set<Pick>
  {
    match k case Flow => FLOW_PICKS case Execution => EXECUTION_PICKS
  }

  datatype Arg = NoArg | Arg(time: int, id: Id, value: string)

  predicate Selected(p: Pick, r: Row)
  {
    p.nonEmpty ==> Read(r, p.column) != ""
  }

  function ArgOf(p: Pick, r: Row): Arg
  {
    if Selected(p, r) then Arg(r.time, r.id, Read(r, p.column)) else NoArg
  }

  predicate Precedes(t: int, i: Id, u: int, j: Id)
  {
    t < u || (t == u && i < j)
  }

  /** a displaces b. */
  predicate Beats(p: Pick, a: Arg, b: Arg)
    requires a.Arg? && b.Arg?
  {
    if p.latest then Precedes(b.time, b.id, a.time, a.id) else Precedes(a.time, a.id, b.time, b.id)
  }

  /** On equal keys the left state stays. */
  function MergeArg(p: Pick, a: Arg, b: Arg): Arg
  {
    if a.NoArg? then b else if b.NoArg? then a else if Beats(p, b, a) then b else a
  }

  // ---- Whole states ----

  datatype Agg = Agg(
    first: Option<int>, last: Option<int>, ids: set<Id>, flows: set<Id>, attempt: Option<nat>, picks: map<Pick, Arg>)

  function Lower(a: Option<int>, b: Option<int>): Option<int>
  {
    if a.None? then b else if b.None? then a else if b.value < a.value then b else a
  }

  function Higher(a: Option<int>, b: Option<int>): Option<int>
  {
    if a.None? then b else if b.None? then a else if b.value > a.value then b else a
  }

  function Merge(k: Kind, a: Agg, b: Agg): (m: Agg)
    requires a.picks.Keys == b.picks.Keys == PicksOf(k)
    ensures m.picks.Keys == PicksOf(k)
  {
    Agg(Lower(a.first, b.first), Higher(a.last, b.last), a.ids + b.ids, a.flows + b.flows, Higher(a.attempt, b.attempt),
        map p | p in PicksOf(k) :: MergeArg(p, a.picks[p], b.picks[p]))
  }

  function Empty(k: Kind): Agg
  {
    Agg(None, None, {}, {}, None, map p | p in PicksOf(k) :: NoArg)
  }

  /** The state of a single row. */
  function One(k: Kind, r: Row): Agg
  {
    Agg(Some(r.time), Some(r.time), {r.id},
        if k.Execution? && r.flow != 0 then {r.flow} else {}, if k.Execution? then Some(r.attempt) else None,
        map p | p in PicksOf(k) :: ArgOf(p, r))
  }

  /** SELECT ...State(...) over the rows of one group, in the order they are read. */
  function Aggregate(k: Kind, rows: seq<Row>): (a: Agg)
    ensures a.picks.Keys == PicksOf(k)
  {
    if rows == [] then Empty(k) else Merge(k, Aggregate(k, rows[..|rows| - 1]), One(k, rows[|rows| - 1]))
  }

  // ---- What a state means ----

  /** Replicas of an event agree: its identifier determines the row. */
  predicate Consistent(rows: set<Row>)
  {
    forall r, q :: r in rows && q in rows && r.id == q.id ==> r == q
  }

  ghost predicate IsPick(p: Pick, rows: set<Row>, a: Arg)
  {
    && (a.NoArg? ==> forall r :: r in rows ==> !Selected(p, r))
    && (a.Arg? ==> (exists r :: r in rows && Selected(p, r) && ArgOf(p, r) == a)
                   && forall r :: r in rows && Selected(p, r) ==> !Beats(p, ArgOf(p, r), a))
  }

  ghost predicate IsFirst(rows: set<Row>, t: Option<int>)
  {
    && (t.None? <==> rows == {})
    && (t.Some? ==> (exists r :: r in rows && r.time == t.value) && forall r :: r in rows ==> t.value <= r.time)
  }

  ghost predicate IsLast(rows: set<Row>, t: Option<int>)
  {
    && (t.None? <==> rows == {})
    && (t.Some? ==> (exists r :: r in rows && r.time == t.value) && forall r :: r in rows ==> r.time <= t.value)
  }

  ghost predicate IsAttempt(k: Kind, rows: set<Row>, n: Option<nat>)
  {
    && (n.None? <==> k.Flow? || rows == {})
    && (n.Some? ==> (exists r :: r in rows && r.attempt == n.value) && forall r :: r in rows ==> r.attempt <= n.value)
  }

  ghost predicate IsIds(rows: set<Row>, ids: set<Id>)
  {
    forall id :: id in ids <==> exists r :: r in rows && r.id == id
  }

  ghost predicate IsFlows(k: Kind, rows: set<Row>, flows: set<Id>)
  {
    forall id :: id in flows <==> k.Execution? && id != 0 && exists r :: r in rows && r.flow == id
  }

  /** The state holds the minimum and maximum time, the distinct identifiers, and for each
      picked column the value of the extreme row. */
  ghost predicate Describes(k: Kind, rows: set<Row>, a: Agg)
  {
    && IsFirst(rows, a.first) && IsLast(rows, a.last) && IsIds(rows, a.ids)
    && IsFlows(k, rows, a.flows) && IsAttempt(k, rows, a.attempt)
    && a.picks.Keys == PicksOf(k)
    && forall p :: p in PicksOf(k) ==> IsPick(p, rows, a.picks[p])
  }

  // ---- Merging joins descriptions ----

  lemma PickJoin(p: Pick, e: set<Row>, f: set<Row>, a: Arg, b: Arg)
    requires IsPick(p, e, a) && IsPick(p, f, b)
    ensures IsPick(p, e + f, MergeArg(p, a, b))
  {
  }

  lemma FirstJoin(e: set<Row>, f: set<Row>, a: Option<int>, b: Option<int>)
    requires IsFirst(e, a) && IsFirst(f, b)
    ensures IsFirst(e + f, Lower(a, b))
  {
  }

  lemma LastJoin(e: set<Row>, f: set<Row>, a: Option<int>, b: Option<int>)
    requires IsLast(e, a) && IsLast(f, b)
    ensures IsLast(e + f, Higher(a, b))
  {
  }

  lemma AttemptJoin(k: Kind, e: set<Row>, f: set<Row>, a: Option<nat>, b: Option<nat>)
    requires IsAttempt(k, e, a) && IsAttempt(k, f, b)
    ensures IsAttempt(k, e + f, Higher(a, b))
  {
  }

  lemma IdsJoin(e: set<Row>, f: set<Row>, a: set<Id>, b: set<Id>)
    requires IsIds(e, a) && IsIds(f, b)
    ensures IsIds(e + f, a + b)
  {
  }

  lemma FlowsJoin(k: Kind, e: set<Row>, f: set<Row>, a: set<Id>, b: set<Id>)
    requires IsFlows(k, e, a) && IsFlows(k, f, b)
    ensures IsFlows(k, e + f, a + b)
  {
  }

  /** The merge of two states describes the union of what they describe. */
  lemma DescribesJoin(k: Kind, e: set<Row>, f: set<Row>, a: Agg, b: Agg)
    requires Describes(k, e, a) && Describes(k, f, b)
    ensures Describes(k, e + f, Merge(k, a, b))
  {
    hide IsPick, IsFirst, IsLast, IsIds, IsFlows, IsAttempt, MergeArg, Lower, Higher, PicksOf;
    FirstJoin(e, f, a.first, b.first);
    LastJoin(e, f, a.last, b.last);
    AttemptJoin(k, e, f, a.attempt, b.attempt);
    IdsJoin(e, f, a.ids, b.ids);
    FlowsJoin(k, e, f, a.flows, b.flows);
    forall p | p in PicksOf(k) ensures IsPick(p, e + f, Merge(k, a, b).picks[p]) {
      PickJoin(p, e, f, a.picks[p], b.picks[p]);
    }
  }

  lemma OneDescribes(k: Kind, r: Row)
    ensures Describes(k, {r}, One(k, r))
  {
    assert r in {r};
  }

  lemma EmptyDescribes(k: Kind)
    ensures Describes(k, {}, Empty(k))
  {
  }

  function RowSet(rows: seq<Row>): set<Row>
  {
    set r | r in rows
  }

  lemma {:induction false} AggregateDescribes(k: Kind, rows: seq<Row>)
    ensures Describes(k, RowSet(rows), Aggregate(k, rows))
  {
    hide Describes, Merge, One, Empty;
    if rows == [] {
      EmptyDescribes(k);
      assert RowSet(rows) == {};
    } else {
      var n := |rows| - 1;
      AggregateDescribes(k, rows[..n]);
      OneDescribes(k, rows[n]);
      DescribesJoin(k, RowSet(rows[..n]), {rows[n]}, Aggregate(k, rows[..n]), One(k, rows[n]));
      assert rows == rows[..n] + [rows[n]];
      assert RowSet(rows) == RowSet(rows[..n]) + {rows[n]};
    }
  }

  // ---- A description determines the state ----

  lemma PickUnique(p: Pick, rows: set<Row>, a: Arg, b: Arg)
    requires Consistent(rows) && IsPick(p, rows, a) && IsPick(p, rows, b)
    ensures a == b
  {
  }

  lemma TimesUnique(rows: set<Row>, a: Option<int>, b: Option<int>)
    ensures IsFirst(rows, a) && IsFirst(rows, b) ==> a == b
    ensures IsLast(rows, a) && IsLast(rows, b) ==> a == b
  {
  }

  lemma AttemptUnique(k: Kind, rows: set<Row>, a: Option<nat>, b: Option<nat>)
    requires IsAttempt(k, rows, a) && IsAttempt(k, rows, b)
    ensures a == b
  {
  }

  lemma SetsUnique(k: Kind, rows: set<Row>, a: set<Id>, b: set<Id>)
    ensures IsIds(rows, a) && IsIds(rows, b) ==> a == b
    ensures IsFlows(k, rows, a) && IsFlows(k, rows, b) ==> a == b
  {
  }

  lemma DescribesUnique(k: Kind, rows: set<Row>, a: Agg, b: Agg)
    requires Consistent(rows) && Describes(k, rows, a) && Describes(k, rows, b)
    ensures a == b
  {
    hide IsPick, IsFirst, IsLast, IsIds, IsFlows, IsAttempt;
    TimesUnique(rows, a.first, b.first);
    TimesUnique(rows, a.last, b.last);
    AttemptUnique(k, rows, a.attempt, b.attempt);
    SetsUnique(k, rows, a.ids, b.ids);
    SetsUnique(k, rows, a.flows, b.flows);
    forall p | p in PicksOf(k) ensures a.picks[p] == b.picks[p] {
      PickUnique(p, rows, a.picks[p], b.picks[p]);
    }
    assert a.picks == b.picks;
  }

  // ---- Any split, any merge order, any duplicates ----

  /** Insert blocks combined by background merges and a final query, in any shape. */
  datatype Merging = Block(rows: seq<Row>) | Join(left: Merging, right: Merging)

  function RowsOf(t: Merging): set<Row>
  {
    match t case Block(rows) => RowSet(rows) case Join(l, r) => RowsOf(l) + RowsOf(r)
  }

  function Eval(k: Kind, t: Merging): (a: Agg)
    ensures a.picks.Keys == PicksOf(k)
  {
    match t case Block(rows) => Aggregate(k, rows) case Join(l, r) => Merge(k, Eval(k, l), Eval(k, r))
  }

  lemma {:induction false} MergingDescribes(k: Kind, t: Merging)
    ensures Describes(k, RowsOf(t), Eval(k, t))
  {
    hide Describes, Merge, Aggregate;
    match t
    case Block(rows) => AggregateDescribes(k, rows);
    case Join(l, r) =>
      MergingDescribes(k, l);
      MergingDescribes(k, r);
      DescribesJoin(k, RowsOf(l), RowsOf(r), Eval(k, l), Eval(k, r));
  }

  /** However the rows of a group are split into blocks, delivered repeatedly and merged,
      the result is the aggregate of a single pass over them. */
  lemma AnyMergingAgrees(k: Kind, t: Merging, rows: seq<Row>)
    requires Consistent(RowsOf(t)) && RowsOf(t) == RowSet(rows)
    ensures Eval(k, t) == Aggregate(k, rows)
  {
    MergingDescribes(k, t);
    AggregateDescribes(k, rows);
    DescribesUnique(k, RowsOf(t), Eval(k, t), Aggregate(k, rows));
  }

  /** States of consistent rows form a join-semilattice. */
  lemma MergeLaws(k: Kind, t: Merging, u: Merging, v: Merging)
    requires Consistent(RowsOf(t) + RowsOf(u) + RowsOf(v))
    ensures var a, b, c := Eval(k, t), Eval(k, u), Eval(k, v);
            && Merge(k, a, a) == a
            && Merge(k, a, b) == Merge(k, b, a)
            && Merge(k, Merge(k, a, b), c) == Merge(k, a, Merge(k, b, c))
  {
    hide Describes, Merge;
    SameRowsSameState(k, Join(t, t), t);
    SameRowsSameState(k, Join(t, u), Join(u, t));
    SameRowsSameState(k, Join(Join(t, u), v), Join(t, Join(u, v)));
  }

  lemma SameRowsSameState(k: Kind, t: Merging, u: Merging)
    requires Consistent(RowsOf(t)) && RowsOf(t) == RowsOf(u)
    ensures Eval(k, t) == Eval(k, u)
  {
    hide Describes;
    MergingDescribes(k, t);
    MergingDescribes(k, u);
    DescribesUnique(k, RowsOf(t), Eval(k, t), Eval(k, u));
  }

  /** Without consistency order matters: two rows with the same time and identifier and
      different values merge to whichever comes first, and only such rows do. */
  lemma OrderMattersExactly(p: Pick, r: Row, q: Row)
    ensures MergeArg(p, ArgOf(p, r), ArgOf(p, q)) == MergeArg(p, ArgOf(p, q), ArgOf(p, r))
            <==> !(Selected(p, r) && Selected(p, q) && r.time == q.time && r.id == q.id && Read(r, p.column) != Read(q, p.column))
  {
  }
}
