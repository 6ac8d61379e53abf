/** Garbage collection never beats an expiry: an object is deleted only after every
    expiry that deleted events gave it and after the grace period since it was staged. */
module ProtocolGc {
  import opened Common
  import opened Objects
  import opened Protocol
  import Policy
  import opened ProtocolNoLoss

  // ---- The invariant ----

  ghost predicate TimesInv(e: Env, p: Phase)
  {
    HasJob(p) ==> p.job.times == Policy.PageTimes(e.config, p.job.eligible)
  }

  ghost predicate RowsInv(s: State)
  {
    forall slot :: slot in s.candidates ==>
      && SlotOf(s.candidates[slot].ref) == slot
      && slot in s.history.firstStaged && s.candidates[slot].candidateAt == s.history.firstStaged[slot]
  }

  ghost predicate Promised(candidates: map<Slot, Candidate>, slot: Slot, at: int)
  {
    slot in candidates && candidates[slot].eligibleAt >= at
  }

  /** Every expiry of a deleted event has passed, or a candidate row still waits for it. */
  ghost predicate DueInv(s: State)
  {
    forall slot, at :: (slot, at) in s.history.expiries ==> at <= s.clock || Promised(s.candidates, slot, at)
  }

  ghost predicate StagedInv(s: State)
  {
    s.engine.Staged? ==> forall slot :: slot in ToStage(s.engine.job) ==> Promised(s.candidates, slot, s.engine.job.times[slot])
  }

  /** A row that may be collected: its expiry and its grace period are over. */
  ghost predicate Ripe(e: Env, s: State, slot: Slot)
  {
    && slot in s.candidates && s.candidates[slot].archive.Some?
    && s.candidates[slot].eligibleAt <= s.clock && s.candidates[slot].candidateAt + e.grace <= s.clock
  }

  ghost predicate CollectInv(e: Env, s: State)
  {
    && (s.engine.Listed? ==> forall i :: 0 <= i < |s.engine.listed| ==> Ripe(e, s, SlotOf(s.engine.listed[i].ref)))
    && (forall slot :: Pending(s.engine, slot) ==> Ripe(e, s, slot))
  }

  ghost predicate GcInv(e: Env, s: State)
  {
    TimesInv(e, s.engine) && RowsInv(s) && DueInv(s) && StagedInv(s) && CollectInv(e, s)
  }

  // ---- Staging and deleting ----

  lemma {:induction false} FirstRefFound(refs: seq<Ref>, ref: Ref)
    requires ref in refs
    ensures FirstRef(refs, SlotOf(ref)).Some?
  {
    if SlotOf(refs[0]) != SlotOf(ref) { FirstRefFound(refs[1..], ref); }
  }

  lemma {:induction false} FirstRefSlot(refs: seq<Ref>, slot: Slot)
    ensures FirstRef(refs, slot).Some? ==> SlotOf(FirstRef(refs, slot).value) == slot
  {
    if refs != [] { FirstRefSlot(refs[1..], slot); }
  }

  /** Whatever expiry a deleted event gives a payload, its page stages at least that. */
  lemma StagesEveryExpiry(e: Env, job: Job, slot: Slot, at: int)
    requires Policy.Valid(e.config) && job.times == Policy.PageTimes(e.config, job.eligible)
    requires (slot, at) in Assignments(e.config, job.eligible)
    ensures slot in ToStage(job) && job.times[slot] >= at
  {
    var r, link :| r in job.eligible && link in r.links && Stageable(SlotOf(link.ref))
      && Policy.PayloadExpiry(e.config, r, link).Some? && (SlotOf(link.ref), Policy.PayloadExpiry(e.config, r, link).value) == (slot, at);
    Policy.PageTimesCover(e.config, job.eligible, r, link);
    AllRefsComplete(job.eligible, r, link);
    FirstRefFound(AllRefs(job.eligible), link.ref);
  }

  /** A deletion stages an object exactly when some event of the page gives it an expiry:
      a payload the policy keeps forever is not staged, and does not keep another event
      of the page from staging the same object. */
  lemma StagedIffGivenExpiry(e: Env, job: Job, slot: Slot)
    requires Policy.Valid(e.config) && job.times == Policy.PageTimes(e.config, job.eligible)
    ensures slot in ToStage(job) <==> exists at :: (slot, at) in Assignments(e.config, job.eligible)
  {
    if slot in ToStage(job) {
      Policy.PageTimesExact(e.config, job.eligible, slot);
      var r, link :| r in job.eligible && link in r.links && Policy.Assigns(e.config, r, link, slot, job.times[slot]);
      assert (slot, job.times[slot]) in Assignments(e.config, job.eligible);
    }
    forall at | (slot, at) in Assignments(e.config, job.eligible) ensures slot in ToStage(job) {
      StagesEveryExpiry(e, job, slot, at);
    }
  }

  lemma StageKeepsRows(e: Env, s: State, reset: bool)
    requires GcInv(e, s) && Enabled(e, s, Stage(reset))
    ensures RowsInv(Next(e, s, Stage(reset)))
  {
    var job := s.engine.job;
    var t := Next(e, s, Stage(reset));
    forall slot | slot in t.candidates
      ensures SlotOf(t.candidates[slot].ref) == slot
      ensures slot in t.history.firstStaged && t.candidates[slot].candidateAt == t.history.firstStaged[slot]
    {
      FirstRefSlot(AllRefs(job.eligible), slot);
    }
  }

  /** Staging keeps the larger of the old and the new eligible time. */
  lemma StageKeepsDue(e: Env, s: State, reset: bool)
    requires DueInv(s) && Enabled(e, s, Stage(reset))
    ensures DueInv(Next(e, s, Stage(reset))) && StagedInv(Next(e, s, Stage(reset)))
  {
    var t := Next(e, s, Stage(reset));
    forall slot, at | (slot, at) in t.history.expiries ensures at <= t.clock || Promised(t.candidates, slot, at) {
      assert at <= s.clock || Promised(s.candidates, slot, at);
    }
    forall slot | slot in ToStage(t.engine.job) ensures Promised(t.candidates, slot, t.engine.job.times[slot]) {
    }
  }

  lemma StageKeeps(e: Env, s: State, reset: bool)
    requires GcInv(e, s) && Enabled(e, s, Stage(reset))
    ensures GcInv(e, Next(e, s, Stage(reset)))
  {
    hide DueInv, StagedInv, RowsInv;
    StageKeepsRows(e, s, reset);
    StageKeepsDue(e, s, reset);
  }

  lemma DeleteKeepsGc(e: Env, s: State)
    requires GcInv(e, s) && Policy.Valid(e.config) && Enabled(e, s, Delete)
    ensures GcInv(e, Next(e, s, Delete))
  {
    var t := Next(e, s, Delete);
    forall slot, at | (slot, at) in t.history.expiries ensures at <= t.clock || Promised(t.candidates, slot, at) {
      if (slot, at) !in s.history.expiries {
        StagesEveryExpiry(e, s.engine.job, slot, at);
      }
    }
  }

  // ---- Collecting ----

  lemma CompleteKeepsGc(e: Env, s: State, slot: Slot)
    requires GcInv(e, s) && Enabled(e, s, Protocol.Complete(slot))
    ensures GcInv(e, Next(e, s, Protocol.Complete(slot)))
  {
    var t := Next(e, s, Protocol.Complete(slot));
    forall x, at | (x, at) in t.history.expiries ensures at <= t.clock || Promised(t.candidates, x, at) {
      assert at <= s.clock || Promised(s.candidates, x, at);
      if x == slot { assert Ripe(e, s, slot); }
    }
    forall x | Pending(t.engine, x) ensures Ripe(e, t, x) { assert Pending(s.engine, x); }
  }

  lemma FailKeepsGc(e: Env, s: State, slot: Slot)
    requires GcInv(e, s) && Enabled(e, s, Fail(slot))
    ensures GcInv(e, Next(e, s, Fail(slot)))
  {
    var t := Next(e, s, Fail(slot));
    forall x, at | (x, at) in t.history.expiries ensures at <= t.clock || Promised(t.candidates, x, at) {
      assert at <= s.clock || Promised(s.candidates, x, at);
    }
    forall x | Pending(t.engine, x) ensures Ripe(e, t, x) { assert Pending(s.engine, x) && Ripe(e, s, x); }
  }

  lemma ListKeepsGc(e: Env, s: State, now: int, listed: seq<Candidate>)
    requires GcInv(e, s) && Enabled(e, s, List(now, listed))
    ensures GcInv(e, Next(e, s, List(now, listed)))
  {
    var t := Next(e, s, List(now, listed));
    forall i | 0 <= i < |listed| ensures Ripe(e, t, SlotOf(listed[i].ref)) {
      assert Ready(e, s.clock, now, listed[i]);
    }
    DueFrame(e, s, t);
  }

  lemma LookupKeepsGc(e: Env, s: State)
    requires GcInv(e, s) && Enabled(e, s, Lookup)
    ensures GcInv(e, Next(e, s, Lookup))
  {
    var t := Next(e, s, Lookup);
    DueFrame(e, s, t);
    forall slot | Pending(t.engine, slot) ensures Ripe(e, t, slot) {
      var i :| 0 <= i < |s.engine.listed| && SlotOf(s.engine.listed[i].ref) == slot;
      assert Ripe(e, s, slot);
    }
  }

  // ---- Everything else ----

  lemma DueFrame(e: Env, s: State, t: State)
    requires DueInv(s) && RowsInv(s)
    requires t.clock >= s.clock && t.candidates == s.candidates
    requires t.history.expiries == s.history.expiries && t.history.firstStaged == s.history.firstStaged
    ensures DueInv(t) && RowsInv(t)
    ensures forall slot :: Ripe(e, s, slot) ==> Ripe(e, t, slot)
  {
  }

  ghost predicate TouchesRows(a: Step)
  {
    a.Stage? || a.Delete? || a.Complete? || a.Fail? || a.List? || a.Lookup?
  }

  lemma OtherFrame(e: Env, s: State, a: Step)
    requires Enabled(e, s, a) && !TouchesRows(a)
    ensures var t := Next(e, s, a);
            && t.clock >= s.clock && t.candidates == s.candidates
            && t.history.expiries == s.history.expiries && t.history.firstStaged == s.history.firstStaged
  {
    if a.CopyNext? {
      CopyFrame(e, s);
    } else if a.Ingest? || a.RestoreMerge? {
      var rs := if a.Ingest? then a.batch else s.restorer.chunk;
      assert InsertInto(s, rs).history.expiries == s.history.expiries;
    }
  }

  lemma OtherEngine(e: Env, s: State, a: Step)
    requires TimesInv(e, s.engine) && Enabled(e, s, a) && !TouchesRows(a)
    ensures var p := Next(e, s, a).engine;
            && TimesInv(e, p) && !(p.Staged? && p != s.engine) && !(p.Listed? && p != s.engine)
            && forall slot :: Pending(p, slot) ==> Pending(s.engine, slot)
  {
    if a.CopyNext? { CopyFrame(e, s); }
  }

  lemma OtherKeepsGc(e: Env, s: State, a: Step)
    requires GcInv(e, s) && Enabled(e, s, a) && !TouchesRows(a)
    ensures GcInv(e, Next(e, s, a))
  {
    hide Enabled, Next;
    var t := Next(e, s, a);
    OtherFrame(e, s, a);
    OtherEngine(e, s, a);
    DueFrame(e, s, t);
  }

  lemma StepKeepsGc(e: Env, s: State, a: Step)
    requires GcInv(e, s) && Policy.Valid(e.config) && Enabled(e, s, a)
    ensures GcInv(e, Next(e, s, a))
  {
    hide GcInv, Enabled, Next;
    if !TouchesRows(a) {
      OtherKeepsGc(e, s, a);
    } else {
      match a {
        case Stage(reset) => StageKeeps(e, s, reset);
        case Delete => DeleteKeepsGc(e, s);
        case Complete(slot) => CompleteKeepsGc(e, s, slot);
        case Fail(slot) => FailKeepsGc(e, s, slot);
        case List(now, listed) => ListKeepsGc(e, s, now, listed);
        case Lookup => LookupKeepsGc(e, s);
      }
    }
  }

  lemma {:induction false} RunKeepsGc(e: Env, s: State, steps: seq<Step>)
    requires GcInv(e, s) && Policy.Valid(e.config) && CanRun(e, s, steps)
    ensures GcInv(e, Reached(e, s, steps))
    decreases |steps|
  {
    if steps != [] {
      StepKeepsGc(e, s, steps[0]);
      RunKeepsGc(e, Next(e, s, steps[0]), steps[1..]);
    }
  }

  // ---- Main results ----

  /** In every reachable state, an expiry that a deleted event gave a payload has passed
      or is still guarded by a candidate row that becomes eligible no earlier. */
  lemma {:induction false} ExpiriesStayPromised(e: Env, clock: int, steps: seq<Step>, slot: Slot, at: int)
    requires Policy.Valid(e.config) && CanRun(e, Start(clock), steps)
    requires (slot, at) in Reached(e, Start(clock), steps).history.expiries
    ensures var s := Reached(e, Start(clock), steps); at <= s.clock || Promised(s.candidates, slot, at)
  {
    RunKeepsGc(e, Start(clock), steps);
  }

  /** Only a collection step takes objects out of the active stores. */
  lemma OnlyRemoveDeletes(e: Env, s: State, a: Step, slot: Slot)
    requires Enabled(e, s, a) && slot in s.active && slot !in Next(e, s, a).active
    ensures a == Remove(slot)
  {
    if a.CopyNext? { CopyFrame(e, s); }
  }

  lemma RemovedIsDue(e: Env, s: State, slot: Slot)
    requires GcInv(e, s) && Pending(s.engine, slot)
    ensures forall at :: (slot, at) in s.history.expiries ==> at <= s.clock
    ensures slot in s.history.firstStaged && s.history.firstStaged[slot] + e.grace <= s.clock
    ensures slot in s.candidates && s.candidates[slot].archive.Some? && SlotOf(s.candidates[slot].ref) == slot
  {
  }

  /** So when an object disappears, every expiry it was ever given by a deleted event is
      over, and so is the grace period counted from when its row was first staged; its row
      names an archive, and its key is the checksum of its content. */
  lemma {:induction false} DeletionWaitsForExpiry(e: Env, clock: int, steps: seq<Step>, a: Step, slot: Slot)
    requires Policy.Valid(e.config) && CanRun(e, Start(clock), steps)
    requires var s := Reached(e, Start(clock), steps);
             Enabled(e, s, a) && slot in s.active && slot !in Next(e, s, a).active
    ensures var s := Reached(e, Start(clock), steps);
            && (forall at :: (slot, at) in s.history.expiries ==> at <= s.clock)
            && slot in s.history.firstStaged && s.history.firstStaged[slot] + e.grace <= s.clock
            && slot in s.candidates && s.candidates[slot].archive.Some?
            && slot.key.Addressed? && slot.key.sum == s.candidates[slot].ref.sum
  {
    hide CanRun, Reached, Next;
    var s := Reached(e, Start(clock), steps);
    RunKeepsGc(e, Start(clock), steps);
    OnlyRemoveDeletes(e, s, a, slot);
    RemovedIsDue(e, s, slot);
  }
}
