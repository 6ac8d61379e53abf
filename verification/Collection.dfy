/** Collecting a page of payload candidates with concurrent workers.  Every candidate has
    its own program counter; a worker's store call and its update of the shared counters
    are separate steps, and steps of different candidates interleave freely. */
module Collection {
  import opened Common
  import opened Objects
  import opened Protocol

  /** The counters of the collection. */
  datatype Collected = Collected(referenced: nat, orphaned: nat, unknown: nat, removed: nat, reclaimed: nat, errors: nat)

  /** What processCandidate reports about one candidate. */
  datatype Outcome = Outcome(referenced: bool, orphaned: bool, unknown: bool, deleted: bool, bytes: nat, failures: nat, failed: bool)

  /** What a candidate is, whatever the workers do. */
  datatype CandidateKind = Kept | Orphan | Unusable

  function Kind(e: Env, verdict: map<Slot, bool>, c: Candidate): CandidateKind
  {
    if SlotOf(c.ref) in verdict && verdict[SlotOf(c.ref)] then Kept
    else if c.ref.store !in e.sources || !ValidAddressed(c.ref) then Unusable
    else Orphan
  }

  // ---- Workers ----

  /** Where the processing of a candidate stands. */
  datatype Pc =
    | Queued               // not yet received from the jobs channel
    | Taken                // received by a worker
    | Removed              // the object was deleted, the row is still there
    | Undeleted            // deleting reported an error, which is to be recorded
    | Finished(o: Outcome) // processCandidate has returned, before the mutex
    | Counted              // the counters are updated

  /** The page being collected: the counters and whether an error was kept. */
  datatype Pool = Pool(pcs: seq<Pc>, report: Collected, failed: bool)

  function NewPool(n: nat, r: Collected): Pool
  {
    Pool(seq(n, i => Queued), r, false)
  }

  predicate Busy(pc: Pc)
  {
    !pc.Queued? && !pc.Counted?
  }

  function Workers(pcs: seq<Pc>): nat
  {
    if pcs == [] then 0 else Workers(pcs[..|pcs| - 1]) + (if Busy(pcs[|pcs| - 1]) then 1 else 0)
  }

  /** Candidates are received in order by one of a limited number of workers. */
  predicate CanMove(pool: Pool, workers: nat, i: nat)
  {
    && i < |pool.pcs| && !pool.pcs[i].Counted?
    && (pool.pcs[i].Queued? ==> Workers(pool.pcs) < workers && forall j :: 0 <= j < i ==> !pool.pcs[j].Queued?)
  }

  /** The store call of a move, if it takes effect. */
  function Effect(e: Env, verdict: map<Slot, bool>, c: Candidate, pc: Pc): Option<Step>
  {
    var slot := SlotOf(c.ref);
    match pc
    case Taken =>
      (match Kind(e, verdict, c)
       case Kept => Some(Complete(slot))
       case Unusable => Some(Fail(slot))
       case Orphan => Some(Remove(slot)))
    case Removed => Some(Complete(slot))
    case Undeleted => Some(Fail(slot))
    case _ => None
  }

  /** Where a move leads; ok is what its store call reports. */
  function MovePc(e: Env, verdict: map<Slot, bool>, c: Candidate, pc: Pc, ok: bool): Pc
  {
    match pc
    case Queued => Taken
    case Taken =>
      (match Kind(e, verdict, c)
       case Kept => Finished(Outcome(true, false, false, false, 0, 0, !ok))
       case Unusable => Finished(Outcome(false, false, true, false, 0, 1, true))
       case Orphan => if ok then Removed else Undeleted)
    case Removed =>
      Finished(if ok then Outcome(false, true, false, true, if c.ref.storedSize > 0 then c.ref.storedSize else 0, 0, false)
               else Outcome(false, true, false, true, 0, 0, true))
    case Undeleted => Finished(Outcome(false, true, false, false, 0, 1, true))
    case _ => Counted
  }

  function AddOutcome(report: Collected, o: Outcome): Collected
  {
    report.(referenced := report.referenced + (if o.referenced then 1 else 0),
            orphaned := report.orphaned + (if o.orphaned then 1 else 0),
            unknown := report.unknown + (if o.unknown then 1 else 0),
            removed := report.removed + (if o.deleted then 1 else 0),
            reclaimed := report.reclaimed + o.bytes, errors := report.errors + o.failures)
  }

  /** One step of the pool: candidate i moves on; finished candidates are counted. */
  function Advance(e: Env, verdict: map<Slot, bool>, listed: seq<Candidate>, pool: Pool, i: nat, ok: bool): Pool
    requires i < |pool.pcs| == |listed|
  {
    var pc := pool.pcs[i];
    var moved := pool.(pcs := pool.pcs[i := MovePc(e, verdict, listed[i], pc, ok)]);
    if pc.Finished? then moved.(report := AddOutcome(pool.report, pc.o), failed := pool.failed || pc.o.failed) else moved
  }

  predicate AllCounted(pool: Pool)
  {
    forall i :: 0 <= i < |pool.pcs| ==> pool.pcs[i].Counted?
  }

  // ---- The collection ends ----

  function Weight(pc: Pc): nat
  {
    match pc case Queued => 4 case Taken => 3 case Removed => 2 case Undeleted => 2 case Finished(_) => 1 case Counted => 0
  }

  function Weights(pcs: seq<Pc>): nat
  {
    if pcs == [] then 0 else Weights(pcs[..|pcs| - 1]) + Weight(pcs[|pcs| - 1])
  }

  lemma {:induction false} WeightsUpdate(pcs: seq<Pc>, i: nat, pc: Pc)
    requires i < |pcs|
    ensures Weights(pcs[i := pc]) == Weights(pcs) - Weight(pcs[i]) + Weight(pc)
  {
    var n := |pcs| - 1;
    if i == n {
      assert pcs[i := pc][..n] == pcs[..n];
    } else {
      assert pcs[i := pc][..n] == pcs[..n][i := pc];
      WeightsUpdate(pcs[..n], i, pc);
    }
  }

  /** Every move brings the collection closer to its end. */
  lemma MoveLowersWeight(e: Env, verdict: map<Slot, bool>, listed: seq<Candidate>, pool: Pool, i: nat, ok: bool)
    requires i < |pool.pcs| == |listed| && !pool.pcs[i].Counted?
    ensures Weights(Advance(e, verdict, listed, pool, i, ok).pcs) < Weights(pool.pcs)
  {
    WeightsUpdate(pool.pcs, i, MovePc(e, verdict, listed[i], pool.pcs[i], ok));
  }

  lemma {:induction false} NoneBusy(pcs: seq<Pc>)
    requires forall i :: 0 <= i < |pcs| ==> !Busy(pcs[i])
    ensures Workers(pcs) == 0
  {
    if pcs != [] { NoneBusy(pcs[..|pcs| - 1]); }
  }

  lemma {:induction false} FirstQueued(pcs: seq<Pc>) returns (i: nat)
    requires exists j :: 0 <= j < |pcs| && pcs[j].Queued?
    ensures i < |pcs| && pcs[i].Queued? && forall j :: 0 <= j < i ==> !pcs[j].Queued?
  {
    if pcs[0].Queued? {
      i := 0;
    } else {
      var j :| 0 <= j < |pcs| && pcs[j].Queued?;
      assert pcs[1..][j - 1].Queued?;
      i := FirstQueued(pcs[1..]);
      i := i + 1;
      assert forall j :: 0 < j < i ==> pcs[1..][j - 1] == pcs[j];
    }
  }

  /** Until everything is counted some candidate can move. */
  lemma SomeMove(pool: Pool, workers: nat) returns (i: nat)
    requires workers >= 1 && !AllCounted(pool)
    ensures CanMove(pool, workers, i)
  {
    if exists j :: 0 <= j < |pool.pcs| && Busy(pool.pcs[j]) {
      i :| 0 <= i < |pool.pcs| && Busy(pool.pcs[i]);
    } else {
      NoneBusy(pool.pcs);
      var j :| 0 <= j < |pool.pcs| && !pool.pcs[j].Counted?;
      i := FirstQueued(pool.pcs);
    }
  }

  // ---- Counting ----

  /** How many candidates of a page are of a kind. */
  ghost function Count(e: Env, verdict: map<Slot, bool>, cs: seq<Candidate>, kind: CandidateKind): nat
  {
    if cs == [] then 0
    else Count(e, verdict, cs[..|cs| - 1], kind) + (if Kind(e, verdict, cs[|cs| - 1]) == kind then 1 else 0)
  }

  /** How many of them are not yet in the counters. */
  ghost function Uncounted(e: Env, verdict: map<Slot, bool>, cs: seq<Candidate>, pcs: seq<Pc>, kind: CandidateKind): nat
    requires |cs| == |pcs|
  {
    if cs == [] then 0
    else
      var n := |cs| - 1;
      Uncounted(e, verdict, cs[..n], pcs[..n], kind) + (if Kind(e, verdict, cs[n]) == kind && !pcs[n].Counted? then 1 else 0)
  }

  lemma {:induction false} UncountedUpdate(e: Env, verdict: map<Slot, bool>, cs: seq<Candidate>, pcs: seq<Pc>, i: nat, pc: Pc, kind: CandidateKind)
    requires i < |cs| == |pcs| && !pcs[i].Counted?
    ensures Uncounted(e, verdict, cs, pcs[i := pc], kind)
         == Uncounted(e, verdict, cs, pcs, kind) - (if Kind(e, verdict, cs[i]) == kind && pc.Counted? then 1 else 0)
  {
    hide Kind;
    var n := |cs| - 1;
    if i == n {
      assert pcs[i := pc][..n] == pcs[..n];
    } else {
      assert pcs[i := pc][..n] == pcs[..n][i := pc];
      UncountedUpdate(e, verdict, cs[..n], pcs[..n], i, pc, kind);
    }
  }

  lemma {:induction false} UncountedAtEnds(e: Env, verdict: map<Slot, bool>, cs: seq<Candidate>, pcs: seq<Pc>, kind: CandidateKind)
    requires |cs| == |pcs|
    ensures (forall i :: 0 <= i < |pcs| ==> !pcs[i].Counted?) ==> Uncounted(e, verdict, cs, pcs, kind) == Count(e, verdict, cs, kind)
    ensures (forall i :: 0 <= i < |pcs| ==> pcs[i].Counted?) ==> Uncounted(e, verdict, cs, pcs, kind) == 0
  {
    if cs != [] { UncountedAtEnds(e, verdict, cs[..|cs| - 1], pcs[..|cs| - 1], kind); }
  }

  /** What deleting a candidate reclaims. */
  function Bytes(e: Env, verdict: map<Slot, bool>, c: Candidate): nat
  {
    if Kind(e, verdict, c).Orphan? && c.ref.storedSize > 0 then c.ref.storedSize else 0
  }

  ghost function AllBytes(e: Env, verdict: map<Slot, bool>, cs: seq<Candidate>): nat
  {
    if cs == [] then 0 else AllBytes(e, verdict, cs[..|cs| - 1]) + Bytes(e, verdict, cs[|cs| - 1])
  }

  ghost function UncountedBytes(e: Env, verdict: map<Slot, bool>, cs: seq<Candidate>, pcs: seq<Pc>): nat
    requires |cs| == |pcs|
  {
    if cs == [] then 0
    else
      var n := |cs| - 1;
      UncountedBytes(e, verdict, cs[..n], pcs[..n]) + (if pcs[n].Counted? then 0 else Bytes(e, verdict, cs[n]))
  }

  lemma {:induction false} BytesUpdate(e: Env, verdict: map<Slot, bool>, cs: seq<Candidate>, pcs: seq<Pc>, i: nat, pc: Pc)
    requires i < |cs| == |pcs| && !pcs[i].Counted?
    ensures UncountedBytes(e, verdict, cs, pcs[i := pc])
         == UncountedBytes(e, verdict, cs, pcs) - (if pc.Counted? then Bytes(e, verdict, cs[i]) else 0)
  {
    hide Bytes;
    var n := |cs| - 1;
    if i == n {
      assert pcs[i := pc][..n] == pcs[..n];
    } else {
      assert pcs[i := pc][..n] == pcs[..n][i := pc];
      BytesUpdate(e, verdict, cs[..n], pcs[..n], i, pc);
    }
  }

  lemma {:induction false} BytesAtEnds(e: Env, verdict: map<Slot, bool>, cs: seq<Candidate>, pcs: seq<Pc>)
    requires |cs| == |pcs|
    ensures (forall i :: 0 <= i < |pcs| ==> !pcs[i].Counted?) ==> UncountedBytes(e, verdict, cs, pcs) == AllBytes(e, verdict, cs)
    ensures (forall i :: 0 <= i < |pcs| ==> pcs[i].Counted?) ==> UncountedBytes(e, verdict, cs, pcs) == 0
  {
    if cs != [] { BytesAtEnds(e, verdict, cs[..|cs| - 1], pcs[..|cs| - 1]); }
  }

  lemma {:induction false} CountsPartition(e: Env, verdict: map<Slot, bool>, cs: seq<Candidate>)
    ensures Count(e, verdict, cs, Kept) + Count(e, verdict, cs, Orphan) + Count(e, verdict, cs, Unusable) == |cs|
  {
    if cs != [] { CountsPartition(e, verdict, cs[..|cs| - 1]); }
  }

  ghost predicate OutcomeOk(e: Env, verdict: map<Slot, bool>, c: Candidate, o: Outcome, all: bool)
  {
    && Kind(e, verdict, c) == (if o.referenced then Kept else if o.orphaned then Orphan else Unusable)
    && (if o.referenced then 1 else 0) + (if o.orphaned then 1 else 0) + (if o.unknown then 1 else 0) == 1
    && (o.deleted ==> o.orphaned) && (all && o.orphaned ==> o.deleted)
    && o.failures == (if o.unknown || (o.orphaned && !o.deleted) then 1 else 0)
    && (if o.deleted && !o.failed then o.bytes == Bytes(e, verdict, c) else o.bytes == 0)
    && (!o.failed ==> !o.unknown && (o.orphaned ==> o.deleted)) && (all && o.failed ==> o.unknown)
  }

  /** What a program counter says about its candidate; all means that no call fails. */
  ghost predicate PcOk(e: Env, verdict: map<Slot, bool>, c: Candidate, pc: Pc, all: bool)
  {
    && (pc.Removed? || pc.Undeleted? ==> Kind(e, verdict, c).Orphan?)
    && (pc.Undeleted? ==> !all)
    && (pc.Finished? ==> OutcomeOk(e, verdict, c, pc.o, all))
  }

  /** No more are deleted than orphaned, all of them when no call fails; every other orphan
      and every unknown candidate is an error. */
  ghost predicate Deletions(r: Collected, report: Collected, all: bool)
  {
    && 0 <= report.removed - r.removed <= report.orphaned - r.orphaned
    && (all ==> report.removed - r.removed == report.orphaned - r.orphaned)
    && (report.errors - r.errors) + (report.removed - r.removed) == (report.unknown - r.unknown) + (report.orphaned - r.orphaned)
  }

  /** What the first error says about the counters. */
  ghost predicate Errors(r: Collected, report: Collected, failed: bool, all: bool)
  {
    && (!failed ==> report.unknown == r.unknown && report.removed - r.removed == report.orphaned - r.orphaned)
    && (failed && all ==> report.unknown > r.unknown)
  }

  /** The counters of a page in progress. */
  ghost predicate Tallying(e: Env, verdict: map<Slot, bool>, listed: seq<Candidate>, pool: Pool, r: Collected, all: bool)
  {
    && |pool.pcs| == |listed|
    && (forall i :: 0 <= i < |listed| ==> PcOk(e, verdict, listed[i], pool.pcs[i], all))
    && pool.report.referenced + Uncounted(e, verdict, listed, pool.pcs, Kept) == r.referenced + Count(e, verdict, listed, Kept)
    && pool.report.orphaned + Uncounted(e, verdict, listed, pool.pcs, Orphan) == r.orphaned + Count(e, verdict, listed, Orphan)
    && pool.report.unknown + Uncounted(e, verdict, listed, pool.pcs, Unusable) == r.unknown + Count(e, verdict, listed, Unusable)
    && Deletions(r, pool.report, all) && Errors(r, pool.report, pool.failed, all)
    && pool.report.unknown >= r.unknown
    && pool.report.reclaimed + UncountedBytes(e, verdict, listed, pool.pcs) <= r.reclaimed + AllBytes(e, verdict, listed)
    && (all ==> pool.report.reclaimed + UncountedBytes(e, verdict, listed, pool.pcs) == r.reclaimed + AllBytes(e, verdict, listed))
  }

  /** The counters after a page whose liveness lookup succeeded: each candidate is
      referenced, orphaned or unknown by what it is, no more are deleted and reclaimed than
      orphaned, and all of them when no call fails. */
  ghost predicate Tallied(e: Env, verdict: map<Slot, bool>, listed: seq<Candidate>, r: Collected, report: Collected, failed: bool, all: bool)
  {
    && report.referenced == r.referenced + Count(e, verdict, listed, Kept)
    && report.orphaned == r.orphaned + Count(e, verdict, listed, Orphan)
    && report.unknown == r.unknown + Count(e, verdict, listed, Unusable)
    && report.referenced + report.orphaned + report.unknown == r.referenced + r.orphaned + r.unknown + |listed|
    && Deletions(r, report, all) && Errors(r, report, failed, all)
    && report.reclaimed <= r.reclaimed + AllBytes(e, verdict, listed)
    && (all ==> report.reclaimed == r.reclaimed + AllBytes(e, verdict, listed))
  }

  lemma TallyStarts(e: Env, verdict: map<Slot, bool>, listed: seq<Candidate>, r: Collected, all: bool)
    ensures Tallying(e, verdict, listed, NewPool(|listed|, r), r, all)
  {
    var pcs := NewPool(|listed|, r).pcs;
    UncountedAtEnds(e, verdict, listed, pcs, Kept);
    UncountedAtEnds(e, verdict, listed, pcs, Orphan);
    UncountedAtEnds(e, verdict, listed, pcs, Unusable);
    BytesAtEnds(e, verdict, listed, pcs);
  }

  /** Any move of any candidate keeps the tally. */
  lemma TallyMove(e: Env, verdict: map<Slot, bool>, listed: seq<Candidate>, pool: Pool, i: nat, ok: bool, r: Collected, all: bool)
    requires Tallying(e, verdict, listed, pool, r, all) && i < |listed| && !pool.pcs[i].Counted? && (all ==> ok)
    ensures Tallying(e, verdict, listed, Advance(e, verdict, listed, pool, i, ok), r, all)
  {
    hide Uncounted, Count, Kind, UncountedBytes, AllBytes;
    var pc := MovePc(e, verdict, listed[i], pool.pcs[i], ok);
    PcMoves(e, verdict, listed[i], pool.pcs[i], ok, all);
    UncountedUpdate(e, verdict, listed, pool.pcs, i, pc, Kept);
    UncountedUpdate(e, verdict, listed, pool.pcs, i, pc, Orphan);
    UncountedUpdate(e, verdict, listed, pool.pcs, i, pc, Unusable);
    BytesUpdate(e, verdict, listed, pool.pcs, i, pc);
  }

  lemma PcMoves(e: Env, verdict: map<Slot, bool>, c: Candidate, pc: Pc, ok: bool, all: bool)
    requires PcOk(e, verdict, c, pc, all) && (all ==> ok)
    ensures PcOk(e, verdict, c, MovePc(e, verdict, c, pc, ok), all)
  {
  }

  /** When every candidate is counted the page is tallied: the counters depend on the page
      and not on how the workers interleaved. */
  lemma TallyEnds(e: Env, verdict: map<Slot, bool>, listed: seq<Candidate>, pool: Pool, r: Collected, all: bool)
    requires Tallying(e, verdict, listed, pool, r, all) && AllCounted(pool)
    ensures Tallied(e, verdict, listed, r, pool.report, pool.failed, all)
  {
    hide Kind;
    UncountedAtEnds(e, verdict, listed, pool.pcs, Kept);
    UncountedAtEnds(e, verdict, listed, pool.pcs, Orphan);
    UncountedAtEnds(e, verdict, listed, pool.pcs, Unusable);
    BytesAtEnds(e, verdict, listed, pool.pcs);
    CountsPartition(e, verdict, listed);
  }

  /** A run of moves, each of any candidate that can move, with any reported result. */
  predicate CanCollect(e: Env, verdict: map<Slot, bool>, listed: seq<Candidate>, workers: nat, pool: Pool, moves: seq<(nat, bool)>)
    requires |pool.pcs| == |listed|
    decreases |moves|
  {
    moves == []
    || (CanMove(pool, workers, moves[0].0)
        && CanCollect(e, verdict, listed, workers, Advance(e, verdict, listed, pool, moves[0].0, moves[0].1), moves[1..]))
  }

  function Collect(e: Env, verdict: map<Slot, bool>, listed: seq<Candidate>, workers: nat, pool: Pool, moves: seq<(nat, bool)>): Pool
    requires |pool.pcs| == |listed| && CanCollect(e, verdict, listed, workers, pool, moves)
    decreases |moves|
  {
    if moves == [] then pool
    else Collect(e, verdict, listed, workers, Advance(e, verdict, listed, pool, moves[0].0, moves[0].1), moves[1..])
  }

  lemma {:induction false} RunKeepsTally(e: Env, verdict: map<Slot, bool>, listed: seq<Candidate>, workers: nat, pool: Pool, moves: seq<(nat, bool)>, r: Collected)
    requires Tallying(e, verdict, listed, pool, r, false) && CanCollect(e, verdict, listed, workers, pool, moves)
    ensures Tallying(e, verdict, listed, Collect(e, verdict, listed, workers, pool, moves), r, false)
    ensures |moves| + Weights(Collect(e, verdict, listed, workers, pool, moves).pcs) <= Weights(pool.pcs)
    decreases |moves|
  {
    hide PcOk, Uncounted, Count, UncountedBytes, AllBytes, Deletions, Errors, Advance;
    if moves != [] {
      var i, ok := moves[0].0, moves[0].1;
      TallyMove(e, verdict, listed, pool, i, ok, r, false);
      MoveLowersWeight(e, verdict, listed, pool, i, ok);
      RunKeepsTally(e, verdict, listed, workers, Advance(e, verdict, listed, pool, i, ok), moves[1..], r);
    }
  }

  /** In every interleaving of the workers: never more deleted than orphaned, at most four
      moves per candidate, some move enabled until all are counted, and then the counters
      are those of the page. */
  lemma EveryInterleaving(e: Env, verdict: map<Slot, bool>, listed: seq<Candidate>, workers: nat, moves: seq<(nat, bool)>, r: Collected)
    requires workers >= 1 && CanCollect(e, verdict, listed, workers, NewPool(|listed|, r), moves)
    ensures var pool := Collect(e, verdict, listed, workers, NewPool(|listed|, r), moves);
            && Deletions(r, pool.report, false) && |moves| <= 4 * |listed|
            && (if AllCounted(pool) then Tallied(e, verdict, listed, r, pool.report, pool.failed, false) else exists i :: CanMove(pool, workers, i))
  {
    hide CanCollect, Collect;
    var start := NewPool(|listed|, r);
    TallyStarts(e, verdict, listed, r, false);
    RunKeepsTally(e, verdict, listed, workers, start, moves, r);
    StartWeight(|listed|, r);
    var pool := Collect(e, verdict, listed, workers, start, moves);
    if AllCounted(pool) { TallyEnds(e, verdict, listed, pool, r, false); } else { var i := SomeMove(pool, workers); }
  }

  lemma {:induction false} StartWeight(n: nat, r: Collected)
    ensures Weights(NewPool(n, r).pcs) == 4 * n
  {
    if n > 0 {
      StartWeight(n - 1, r);
      assert NewPool(n, r).pcs[..n - 1] == NewPool(n - 1, r).pcs;
    }
  }

  // ---- The stores under a pool ----

  /** A step of a collection that concerns one object only. */
  ghost predicate Touched(s: State, t: State, slot: Slot)
  {
    && s.engine.Collecting? && t.engine.Collecting? && t.engine.verdict == s.engine.verdict && t.engine.listed == s.engine.listed
    && t.live == s.live && t.clock == s.clock
    && forall x :: x != slot ==>
         && (x in t.candidates <==> x in s.candidates) && (x in t.candidates ==> t.candidates[x] == s.candidates[x])
         && (x in t.engine.completed <==> x in s.engine.completed) && (x in t.engine.removed <==> x in s.engine.removed)
         && (x in t.active <==> x in s.active)
  }

  /** The row is kept, with one more attempt, and not listed for an hour. */
  function Deferred(c: Candidate, clock: int): Candidate
  {
    c.(attempts := c.attempts + 1, retryAfter := clock + HOUR)
  }

  ghost predicate RowIs(s: State, c: Candidate)
  {
    SlotOf(c.ref) in s.candidates && s.candidates[SlotOf(c.ref)] == c
  }

  /** What may have become of a candidate's row, and what has when no call fails. */
  ghost predicate Settled(e: Env, verdict: map<Slot, bool>, s: State, c: Candidate, all: bool)
  {
    var slot := SlotOf(c.ref);
    && (slot in s.candidates ==> s.candidates[slot] == c || s.candidates[slot] == Deferred(c, s.clock))
    && (all ==> if Kind(e, verdict, c).Unusable? then slot in s.candidates && s.candidates[slot] == Deferred(c, s.clock) else slot !in s.candidates)
    && (all && Kind(e, verdict, c).Orphan? ==> slot !in s.active)
  }

  /** How the stores stand while a candidate is at a program counter. */
  ghost predicate Stands(e: Env, s: State, c: Candidate, pc: Pc, all: bool)
    requires s.engine.Collecting?
  {
    var slot := SlotOf(c.ref);
    match pc
    case Queued => Pending(s.engine, slot) && slot !in s.engine.removed && RowIs(s, c)
    case Taken => Pending(s.engine, slot) && slot !in s.engine.removed && RowIs(s, c)
    case Removed => Pending(s.engine, slot) && slot in s.engine.removed && RowIs(s, c) && slot !in s.active
    case Undeleted => Pending(s.engine, slot) && !s.engine.verdict[slot] && RowIs(s, c)
    case _ => Settled(e, s.engine.verdict, s, c, all)
  }

  ghost predicate DistinctSlots(cs: seq<Candidate>)
  {
    forall i, j :: 0 <= i < j < |cs| ==> SlotOf(cs[i].ref) != SlotOf(cs[j].ref)
  }

  ghost predicate PoolInv(e: Env, s: State, listed: seq<Candidate>, pool: Pool, all: bool)
  {
    && |pool.pcs| == |listed| && s.engine.Collecting? && DistinctSlots(listed)
    && forall i :: 0 <= i < |listed| ==> Stands(e, s, listed[i], pool.pcs[i], all)
  }

  lemma TouchedSelf(s: State, slot: Slot)
    requires s.engine.Collecting?
    ensures Touched(s, s, slot)
  {
  }

  lemma RemoveMove(e: Env, s: State, c: Candidate, all: bool)
    requires s.engine.Collecting? && Stands(e, s, c, Taken, all) && Kind(e, s.engine.verdict, c).Orphan?
    ensures Enabled(e, s, Remove(SlotOf(c.ref)))
    ensures var t := Next(e, s, Remove(SlotOf(c.ref)));
            Touched(s, t, SlotOf(c.ref)) && Stands(e, t, c, Removed, all) && Stands(e, t, c, Undeleted, all)
  {
  }

  lemma CompleteMove(e: Env, s: State, c: Candidate, pc: Pc, all: bool)
    requires s.engine.Collecting? && Stands(e, s, c, pc, all) && PcOk(e, s.engine.verdict, c, pc, all)
    requires pc.Removed? || (pc.Taken? && Kind(e, s.engine.verdict, c).Kept?)
    ensures Enabled(e, s, Complete(SlotOf(c.ref)))
    ensures var t := Next(e, s, Complete(SlotOf(c.ref))); Touched(s, t, SlotOf(c.ref)) && Settled(e, t.engine.verdict, t, c, all)
  {
  }

  lemma FailMove(e: Env, s: State, c: Candidate, pc: Pc, all: bool)
    requires s.engine.Collecting? && Stands(e, s, c, pc, all) && PcOk(e, s.engine.verdict, c, pc, all)
    requires pc.Undeleted? || (pc.Taken? && Kind(e, s.engine.verdict, c).Unusable?)
    ensures Enabled(e, s, Fail(SlotOf(c.ref)))
    ensures var t := Next(e, s, Fail(SlotOf(c.ref))); Touched(s, t, SlotOf(c.ref)) && Settled(e, t.engine.verdict, t, c, all)
  {
  }

  /** The state after a move whose call takes effect or not. */
  ghost function After(e: Env, s: State, c: Candidate, pc: Pc, done: bool): State
    requires s.engine.Collecting? && (Effect(e, s.engine.verdict, c, pc).Some? && done ==> Enabled(e, s, Effect(e, s.engine.verdict, c, pc).value))
  {
    var a := Effect(e, s.engine.verdict, c, pc);
    if a.Some? && done then Next(e, s, a.value) else s
  }

  /** Each move's call is enabled, touches one object, and leaves it where the next
      program counter says; a call that reports success took effect. */
  lemma MoveSound(e: Env, s: State, c: Candidate, pc: Pc, done: bool, ok: bool, all: bool)
    requires s.engine.Collecting? && Stands(e, s, c, pc, all) && PcOk(e, s.engine.verdict, c, pc, all) && !pc.Counted?
    requires (ok ==> done) && (all ==> ok)
    ensures Effect(e, s.engine.verdict, c, pc).Some? ==> Enabled(e, s, Effect(e, s.engine.verdict, c, pc).value)
    ensures var t := After(e, s, c, pc, done);
            Touched(s, t, SlotOf(c.ref)) && Stands(e, t, c, MovePc(e, s.engine.verdict, c, pc, ok), all)
  {
    hide Enabled, Next, Touched, Settled;
    TouchedSelf(s, SlotOf(c.ref));
    StayPut(e, s, c, pc, all);
    if pc.Removed? || (pc.Taken? && Kind(e, s.engine.verdict, c).Kept?) {
      CompleteMove(e, s, c, pc, all);
    } else if pc.Undeleted? || (pc.Taken? && Kind(e, s.engine.verdict, c).Unusable?) {
      FailMove(e, s, c, pc, all);
    } else if pc.Taken? {
      RemoveMove(e, s, c, all);
    }
  }

  /** A call without effect leaves a row that may be settled as it is, unless no call fails. */
  lemma StayPut(e: Env, s: State, c: Candidate, pc: Pc, all: bool)
    requires s.engine.Collecting? && Stands(e, s, c, pc, all)
    ensures !all && (pc.Taken? || pc.Removed? || pc.Undeleted?) ==> Settled(e, s.engine.verdict, s, c, all)
    ensures pc.Taken? && SlotOf(c.ref) in s.engine.verdict && !s.engine.verdict[SlotOf(c.ref)] ==> Stands(e, s, c, Undeleted, all)
  {
  }

  lemma OthersStay(e: Env, s: State, t: State, c: Candidate, pc: Pc, slot: Slot, all: bool)
    requires Touched(s, t, slot) && SlotOf(c.ref) != slot && Stands(e, s, c, pc, all)
    ensures Stands(e, t, c, pc, all)
  {
  }

  /** So any interleaving keeps every candidate's part of the stores in step. */
  lemma PoolMove(e: Env, s: State, listed: seq<Candidate>, pool: Pool, i: nat, done: bool, ok: bool, all: bool)
    requires PoolInv(e, s, listed, pool, all) && i < |listed| && !pool.pcs[i].Counted?
    requires PcOk(e, s.engine.verdict, listed[i], pool.pcs[i], all) && (ok ==> done) && (all ==> ok)
    ensures Effect(e, s.engine.verdict, listed[i], pool.pcs[i]).Some? ==> Enabled(e, s, Effect(e, s.engine.verdict, listed[i], pool.pcs[i]).value)
    ensures var t := After(e, s, listed[i], pool.pcs[i], done);
            Touched(s, t, SlotOf(listed[i].ref)) && PoolInv(e, t, listed, Advance(e, s.engine.verdict, listed, pool, i, ok), all)
  {
    hide Enabled, Next, Stands, PcOk, Effect, After, MovePc;
    MoveSound(e, s, listed[i], pool.pcs[i], done, ok, all);
    var t := After(e, s, listed[i], pool.pcs[i], done);
    forall j | 0 <= j < |listed| && j != i ensures Stands(e, t, listed[j], pool.pcs[j], all) {
      OthersStay(e, s, t, listed[j], pool.pcs[j], SlotOf(listed[i].ref), all);
    }
  }
}
