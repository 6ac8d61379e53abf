/**
 HTTP exchanges and the payload spooler as a state machine.  An exchange logs once, either
 directly or by handing a job to the spooler; the spooler's worker logs the jobs it takes;
 Close may come at any time.  Each lock operation, check, channel operation and Log call is
 a step, and steps of different goroutines interleave freely.
 */
module Spooler {

  /** Where an exchange stands. */
  datatype Pc =
    | Running              // round trip in flight, or body not finished
    | Logging              // the once has been claimed
    | Checking             // read lock held, about to look at closed
    | Selecting            // read lock held, closed was false
    | Releasing(sent: bool)
    | Inline               // about to call Log itself
    | Done

  /** Where the goroutine inside Close stands. */
  datatype Closer = Open | Locked | Marked | Shut | Waiting | Closed

  datatype Worker = Free | Busy(job: nat) | Exited

  /** spooled tells which exchanges captured a payload and have a spooler; logs counts Log
      calls per exchange. */
  datatype State = State(
    spooled: seq<bool>, capacity: nat, exchanges: seq<Pc>, closer: Closer, closed: bool, jobsClosed: bool,
    queue: seq<nat>, worker: Worker, logs: multiset<nat>)

  datatype Step =
    | Call(i: nat)        // RoundTrip fails or has no body, or a body read ends, or the body is closed
    | Acquire(i: nat)     // mu.RLock, or no spooling
    | Check(i: nat)
    | Select(i: nat)
    | Release(i: nat)     // mu.RUnlock
    | Emit(i: nat)        // trail.Log
    | CloseLock | CloseMark | CloseJobs | CloseUnlock | CloseWait
    | Take | Record | Exit

  function Start(spooled: seq<bool>, capacity: nat): State
  {
    State(spooled, capacity, seq(|spooled|, i => Running), Open, false, false, [], Free, multiset{})
  }

  predicate HoldsLock(p: Pc)
  {
    p.Checking? || p.Selecting? || p.Releasing?
  }

  predicate WriteLocked(c: Closer)
  {
    c.Locked? || c.Marked? || c.Shut?
  }

  predicate Known(s: State, i: nat)
  {
    i < |s.exchanges| && i < |s.spooled|
  }

  predicate Enabled(s: State, a: Step)
  {
    match a
    case Call(i) => Known(s, i)
    case Acquire(i) => Known(s, i) && s.exchanges[i].Logging? && (s.spooled[i] ==> !WriteLocked(s.closer))
    case Check(i) => Known(s, i) && s.exchanges[i].Checking?
    case Select(i) => Known(s, i) && s.exchanges[i].Selecting?
    case Release(i) => Known(s, i) && s.exchanges[i].Releasing?
    case Emit(i) => Known(s, i) && s.exchanges[i].Inline?
    case CloseLock => s.closer.Open? && forall i :: 0 <= i < |s.exchanges| ==> !HoldsLock(s.exchanges[i])
    case CloseMark => s.closer.Locked?
    case CloseJobs => s.closer.Marked?
    case CloseUnlock => s.closer.Shut?
    case CloseWait => s.closer.Waiting? && s.worker.Exited?
    case Take => s.worker.Free? && s.queue != []
    case Record => s.worker.Busy?
    case Exit => s.worker.Free? && s.queue == [] && s.jobsClosed
  }

  function Move(s: State, i: nat, p: Pc): State
    requires i < |s.exchanges|
  {
    s.(exchanges := s.exchanges[i := p])
  }

  function Next(s: State, a: Step): State
    requires Enabled(s, a)
  {
    match a
    case Call(i) => if s.exchanges[i].Running? then Move(s, i, Logging) else s   // sync.Once
    case Acquire(i) => Move(s, i, if s.spooled[i] then Checking else Inline)
    case Check(i) => Move(s, i, if s.closed then Releasing(false) else Selecting)
    case Select(i) =>
      if |s.queue| < s.capacity then Move(s, i, Releasing(true)).(queue := s.queue + [i]) else Move(s, i, Releasing(false))
    case Release(i) => Move(s, i, if s.exchanges[i].sent then Done else Inline)
    case Emit(i) => Move(s, i, Done).(logs := s.logs + multiset{i})
    case CloseLock => s.(closer := Locked)
    case CloseMark => s.(closer := Marked, closed := true)
    case CloseJobs => s.(closer := Shut, jobsClosed := true)
    case CloseUnlock => s.(closer := Waiting)
    case CloseWait => s.(closer := Closed)
    case Take => s.(worker := Busy(s.queue[0]), queue := s.queue[1..])
    case Record => s.(worker := Free, logs := s.logs + multiset{s.worker.job})
    case Exit => s.(worker := Exited)
  }

  predicate CanRun(s: State, steps: seq<Step>)
    decreases |steps|
  {
    steps == [] || (Enabled(s, steps[0]) && CanRun(Next(s, steps[0]), steps[1..]))
  }

  function Reached(s: State, steps: seq<Step>): State
    requires CanRun(s, steps)
    decreases |steps|
  {
    if steps == [] then s else Reached(Next(s, steps[0]), steps[1..])
  }

  // ---- The invariant ----

  /** The exchange has handed over its log entry: to Log or to the queue. */
  predicate Settled(p: Pc)
  {
    p.Done? || (p.Releasing? && p.sent)
  }

  ghost function Owed(s: State, i: nat): nat
  {
    s.logs[i] + multiset(s.queue)[i] + (if s.worker == Busy(i) then 1 else 0)
  }

  ghost predicate CountInv(s: State)
  {
    && |s.exchanges| == |s.spooled|
    && (forall i :: 0 <= i < |s.exchanges| ==> Owed(s, i) == if Settled(s.exchanges[i]) then 1 else 0)
    && (forall i :: 0 <= i < |s.queue| ==> s.queue[i] < |s.exchanges|)
    && (s.worker.Busy? ==> s.worker.job < |s.exchanges|)
  }

  /** Between seeing the spooler open and giving the lock back after a send. */
  predicate Sending(p: Pc)
  {
    p.Selecting? || (p.Releasing? && p.sent)
  }

  ghost predicate LockInv(s: State)
  {
    && (WriteLocked(s.closer) ==> forall i :: 0 <= i < |s.exchanges| ==> !HoldsLock(s.exchanges[i]))
    && (s.closed <==> !s.closer.Open? && !s.closer.Locked?)
    && (s.jobsClosed <==> s.closer.Shut? || s.closer.Waiting? || s.closer.Closed?)
    && (forall i :: 0 <= i < |s.exchanges| && Sending(s.exchanges[i]) ==> s.closer.Open?)
    && (s.worker.Exited? ==> s.queue == [] && s.jobsClosed)
    && (s.closer.Closed? ==> s.worker.Exited?)
  }

  ghost predicate Inv(s: State)
  {
    CountInv(s) && LockInv(s)
  }

  lemma StepKeepsLock(s: State, a: Step)
    requires LockInv(s) && Enabled(s, a)
    ensures LockInv(Next(s, a))
  {
  }

  lemma MoveKeepsCount(s: State, i: nat, p: Pc)
    requires CountInv(s) && i < |s.exchanges| && Settled(p) == Settled(s.exchanges[i])
    ensures CountInv(Move(s, i, p))
  {
  }

  lemma SendKeepsCount(s: State, i: nat)
    requires CountInv(s) && i < |s.exchanges| && s.exchanges[i].Selecting?
    ensures CountInv(Move(s, i, Releasing(true)).(queue := s.queue + [i]))
  {
  }

  lemma EmitKeepsCount(s: State, i: nat)
    requires CountInv(s) && i < |s.exchanges| && s.exchanges[i].Inline?
    ensures CountInv(Move(s, i, Done).(logs := s.logs + multiset{i}))
  {
  }

  lemma TakeKeepsCount(s: State)
    requires CountInv(s) && Enabled(s, Take)
    ensures CountInv(Next(s, Take))
  {
    assert s.queue == [s.queue[0]] + s.queue[1..];
    forall j | 0 <= j < |s.exchanges| ensures Owed(Next(s, Take), j) == Owed(s, j) {}
  }

  lemma StepKeepsCount(s: State, a: Step)
    requires CountInv(s) && Enabled(s, a)
    ensures CountInv(Next(s, a))
  {
    hide CountInv;
    match a
    case Call(i) => if s.exchanges[i].Running? { MoveKeepsCount(s, i, Logging); }
    case Acquire(i) => MoveKeepsCount(s, i, if s.spooled[i] then Checking else Inline);
    case Check(i) => MoveKeepsCount(s, i, if s.closed then Releasing(false) else Selecting);
    case Select(i) => if |s.queue| < s.capacity { SendKeepsCount(s, i); } else { MoveKeepsCount(s, i, Releasing(false)); }
    case Release(i) => MoveKeepsCount(s, i, if s.exchanges[i].sent then Done else Inline);
    case Emit(i) => EmitKeepsCount(s, i);
    case Take => TakeKeepsCount(s);
    case _ => OtherKeepsCount(s, a);
  }

  lemma OtherKeepsCount(s: State, a: Step)
    requires CountInv(s) && Enabled(s, a)
    requires a.CloseLock? || a.CloseMark? || a.CloseJobs? || a.CloseUnlock? || a.CloseWait? || a.Record? || a.Exit?
    ensures CountInv(Next(s, a))
  {
  }

  lemma {:induction false} RunKeeps(s: State, steps: seq<Step>)
    requires Inv(s) && CanRun(s, steps)
    ensures Inv(Reached(s, steps))
    decreases |steps|
  {
    hide Enabled, Next, CountInv, LockInv;
    if steps != [] {
      StepKeepsLock(s, steps[0]);
      StepKeepsCount(s, steps[0]);
      RunKeeps(Next(s, steps[0]), steps[1..]);
    }
  }

  lemma StartInv(spooled: seq<bool>, capacity: nat)
    ensures Inv(Start(spooled, capacity))
  {
  }

  // ---- Main results ----

  /** In every interleaving no exchange is logged twice, and once Close has returned an
      exchange that has finished its log call is logged exactly once. */
  lemma {:induction false} LoggedExactlyOnce(spooled: seq<bool>, capacity: nat, steps: seq<Step>, i: nat)
    requires CanRun(Start(spooled, capacity), steps) && i < |spooled|
    ensures var s := Reached(Start(spooled, capacity), steps);
            && i < |s.exchanges| && s.logs[i] <= 1
            && (s.closer.Closed? ==> s.logs[i] == if s.exchanges[i].Done? then 1 else 0)
  {
    hide Enabled, Next, CanRun, Reached;
    StartInv(spooled, capacity);
    RunKeeps(Start(spooled, capacity), steps);
    Exchanges(Start(spooled, capacity), steps);
    var s := Reached(Start(spooled, capacity), steps);
    assert Owed(s, i) == if Settled(s.exchanges[i]) then 1 else 0;
    if s.closer.Closed? { NothingHeld(s, i); }
  }

  /** After Close has returned an exchange may still hold the read lock, but only
      because it was refused: nothing is queued. */
  lemma NothingHeld(s: State, i: nat)
    requires Inv(s) && s.closer.Closed? && i < |s.exchanges|
    ensures s.queue == [] && !s.worker.Busy?
    ensures s.logs[i] == if s.exchanges[i].Done? then 1 else 0
  {
  }

  lemma {:induction false} Exchanges(s: State, steps: seq<Step>)
    requires CanRun(s, steps)
    ensures |Reached(s, steps).exchanges| == |s.exchanges|
    decreases |steps|
  {
    if steps != [] { Exchanges(Next(s, steps[0]), steps[1..]); }
  }

  /** The jobs channel is never sent to after it was closed. */
  lemma {:induction false} NeverSendsOnClosed(spooled: seq<bool>, capacity: nat, steps: seq<Step>, i: nat)
    requires CanRun(Start(spooled, capacity), steps)
    requires Enabled(Reached(Start(spooled, capacity), steps), Select(i))
    ensures !Reached(Start(spooled, capacity), steps).jobsClosed
  {
    hide Next, CanRun, Reached, CountInv;
    StartInv(spooled, capacity);
    RunKeeps(Start(spooled, capacity), steps);
  }

  // ---- Everything ends ----

  /** What the worker has left to do. */
  function Rest(s: State): nat
  {
    2 * |s.queue| + (match s.worker case Busy(_) => 2 case Free => 1 case Exited => 0)
  }

  function Rank(p: Pc): nat
  {
    match p
    case Running => 8 case Logging => 7 case Checking => 6 case Selecting => 5
    case Releasing(sent) => if sent then 1 else 4
    case Inline => 3
    case Done => 0
  }

  function Ranks(ps: seq<Pc>): nat
  {
    if ps == [] then 0 else Ranks(ps[..|ps| - 1]) + Rank(ps[|ps| - 1])
  }

  function CloserRank(c: Closer): nat
  {
    match c case Open => 5 case Locked => 4 case Marked => 3 case Shut => 2 case Waiting => 1 case Closed => 0
  }

  /** What exchanges, closer and worker have left to do together. */
  function Todo(s: State): nat
  {
    Ranks(s.exchanges) + CloserRank(s.closer) + Rest(s)
  }

  lemma {:induction false} RanksUpdate(ps: seq<Pc>, i: nat, p: Pc)
    requires i < |ps|
    ensures Ranks(ps[i := p]) == Ranks(ps) - Rank(ps[i]) + Rank(p)
  {
    var n := |ps| - 1;
    if i == n {
      assert ps[i := p][..n] == ps[..n];
    } else {
      assert ps[i := p][..n] == ps[..n][i := p];
      RanksUpdate(ps[..n], i, p);
    }
  }

  lemma MoveLowers(s: State, i: nat, p: Pc)
    requires i < |s.exchanges|
    ensures Todo(Move(s, i, p)) == Todo(s) - Rank(s.exchanges[i]) + Rank(p)
  {
    hide Ranks;
    RanksUpdate(s.exchanges, i, p);
  }

  /** Every step either is a repeated call, which does nothing, or brings the end closer. */
  lemma StepLowers(s: State, a: Step)
    requires Enabled(s, a)
    ensures Next(s, a) == s || Todo(Next(s, a)) < Todo(s)
    ensures Next(s, a) == s ==> a.Call?
  {
    hide Todo;
    match a
    case Call(i) => MoveLowers(s, i, Logging);
    case Acquire(i) => MoveLowers(s, i, if s.spooled[i] then Checking else Inline);
    case Check(i) => MoveLowers(s, i, if s.closed then Releasing(false) else Selecting);
    case Select(i) => SelectLowers(s, i);
    case Release(i) => MoveLowers(s, i, if s.exchanges[i].sent then Done else Inline);
    case Emit(i) => EmitLowers(s, i);
    case _ => OtherLowers(s, a);
  }

  lemma OtherLowers(s: State, a: Step)
    requires Enabled(s, a) && !a.Call? && !a.Acquire? && !a.Check? && !a.Select? && !a.Release? && !a.Emit?
    ensures Todo(Next(s, a)) < Todo(s)
  {
    hide Ranks;
  }

  lemma EmitLowers(s: State, i: nat)
    requires Enabled(s, Emit(i))
    ensures Todo(Next(s, Emit(i))) < Todo(s)
  {
    hide Ranks;
    MoveLowers(s, i, Done);
  }

  lemma SelectLowers(s: State, i: nat)
    requires Enabled(s, Select(i))
    ensures Todo(Next(s, Select(i))) < Todo(s)
  {
    hide Ranks;
    MoveLowers(s, i, Releasing(|s.queue| < s.capacity));
  }

  ghost predicate Effective(s: State, steps: seq<Step>)
    requires CanRun(s, steps)
    decreases |steps|
  {
    steps == [] || (Next(s, steps[0]) != s && Effective(Next(s, steps[0]), steps[1..]))
  }

  /** So no run has more effective steps than there was to do. */
  lemma {:induction false} RunsAreBounded(s: State, steps: seq<Step>)
    requires CanRun(s, steps) && Effective(s, steps)
    ensures |steps| + Todo(Reached(s, steps)) <= Todo(s)
    decreases |steps|
  {
    hide Enabled, Next, Todo;
    if steps != [] {
      StepLowers(s, steps[0]);
      RunsAreBounded(Next(s, steps[0]), steps[1..]);
    }
  }

  /** The next step of a claimed exchange. */
  function OwnStep(p: Pc, i: nat): Step
  {
    match p
    case Logging => Acquire(i) case Checking => Check(i) case Selecting => Select(i) case Releasing(_) => Release(i)
    case Inline => Emit(i)
    case _ => Call(i)
  }

  /** A claimed exchange can always move, except while Close holds the lock, which then can. */
  lemma ClaimedCanMove(s: State, i: nat)
    requires Inv(s) && i < |s.exchanges| && !s.exchanges[i].Running? && !s.exchanges[i].Done?
    ensures Enabled(s, OwnStep(s.exchanges[i], i)) || CloserCanStep(s)
    ensures HoldsLock(s.exchanges[i]) ==> Enabled(s, OwnStep(s.exchanges[i], i))
  {
  }

  predicate CloserCanStep(s: State)
  {
    Enabled(s, CloseMark) || Enabled(s, CloseJobs) || Enabled(s, CloseUnlock) || Enabled(s, CloseWait)
  }

  predicate OfWorker(a: Step)
  {
    a.Take? || a.Record? || a.Exit?
  }

  /** Close is never stuck: it can take the lock or a reader can move, it can take its next
      step, or the worker can. */
  lemma CloseCanMove(s: State)
    requires Inv(s) && !s.closer.Closed?
    ensures s.closer.Open? ==> Enabled(s, CloseLock) || exists i :: 0 <= i < |s.exchanges| && HoldsLock(s.exchanges[i]) && Enabled(s, OwnStep(s.exchanges[i], i))
    ensures !s.closer.Open? ==> CloserCanStep(s) || exists a :: OfWorker(a) && Enabled(s, a)
  {
    hide CountInv;
    if s.closer.Open? && !Enabled(s, CloseLock) {
      var i :| 0 <= i < |s.exchanges| && HoldsLock(s.exchanges[i]);
      assert |s.exchanges| == |s.spooled| by { SameLength(s); }
      assert Enabled(s, OwnStep(s.exchanges[i], i));
    } else if s.closer.Waiting? && !s.worker.Exited? {
      var a := if s.worker.Busy? then Record else if s.queue != [] then Take else Exit;
      assert OfWorker(a) && Enabled(s, a);
    }
  }

  lemma SameLength(s: State)
    requires CountInv(s)
    ensures |s.exchanges| == |s.spooled|
  {
  }

  /** Nothing but a first Close could still change the state. */
  ghost predicate Quiescent(s: State)
  {
    forall a :: Enabled(s, a) && !a.CloseLock? ==> Next(s, a) == s
  }

  lemma OwnStepMoves(s: State, i: nat)
    requires i < |s.exchanges| && !s.exchanges[i].Done? && Enabled(s, OwnStep(s.exchanges[i], i))
    ensures Next(s, OwnStep(s.exchanges[i], i)) != s
  {
    hide Ranks;
    var a := OwnStep(s.exchanges[i], i);
    assert Next(s, a).exchanges[i] != s.exchanges[i];
  }

  lemma QuietExchange(s: State, i: nat)
    requires Inv(s) && Quiescent(s) && i < |s.exchanges|
    ensures s.exchanges[i].Done? && !CloserCanStep(s)
  {
    hide CountInv, LockInv, Quiescent;
    assert |s.exchanges| == |s.spooled| by { SameLength(s); }
    QuietCloser(s);
    if !s.exchanges[i].Done? {
      if !s.exchanges[i].Running? { ClaimedCanMove(s, i); }
      OwnStepMoves(s, i);
      StaysPut(s, OwnStep(s.exchanges[i], i));
    }
  }

  lemma StaysPut(s: State, a: Step)
    requires Quiescent(s) && Enabled(s, a) && !a.CloseLock?
    ensures Next(s, a) == s
  {
  }

  lemma QuietCloser(s: State)
    requires Quiescent(s)
    ensures !CloserCanStep(s) && forall a :: OfWorker(a) ==> !Enabled(s, a)
  {
    hide Ranks;
    if Enabled(s, CloseMark) { StepLowers(s, CloseMark); }
    if Enabled(s, CloseJobs) { StepLowers(s, CloseJobs); }
    if Enabled(s, CloseUnlock) { StepLowers(s, CloseUnlock); }
    if Enabled(s, CloseWait) { StepLowers(s, CloseWait); }
    forall a | OfWorker(a) ensures !Enabled(s, a) { if Enabled(s, a) { StepLowers(s, a); } }
  }

  /** When nothing is left to happen, every exchange is logged exactly once, and Close has
      returned if it was called; a first Close can then take the lock at once. */
  lemma {:induction false} AllLoggedInTheEnd(spooled: seq<bool>, capacity: nat, steps: seq<Step>)
    requires CanRun(Start(spooled, capacity), steps) && Quiescent(Reached(Start(spooled, capacity), steps))
    ensures var s := Reached(Start(spooled, capacity), steps);
            && (forall i :: 0 <= i < |s.exchanges| ==> s.exchanges[i].Done? && s.logs[i] == 1)
            && (if s.closer.Open? then Enabled(s, CloseLock) else s.closer.Closed?)
  {
    hide CanRun, Reached, Quiescent, CloserCanStep, CountInv;
    StartInv(spooled, capacity);
    RunKeeps(Start(spooled, capacity), steps);
    var s := Reached(Start(spooled, capacity), steps);
    QuietCloser(s);
    if !s.closer.Closed? { CloseCanMove(s); }
    forall i | 0 <= i < |s.exchanges| ensures s.exchanges[i].Done? && s.logs[i] == 1 {
      QuietExchange(s, i);
      IdleLogs(s, i);
    }
  }

  /** An idle worker owes nothing. */
  lemma IdleLogs(s: State, i: nat)
    requires CountInv(s) && i < |s.exchanges| && s.exchanges[i].Done? && forall a :: OfWorker(a) ==> !Enabled(s, a)
    requires s.worker.Exited? ==> s.queue == []
    ensures s.logs[i] == 1
  {
    assert !Enabled(s, Take) && !Enabled(s, Record);
    assert Owed(s, i) == 1;
  }
}
