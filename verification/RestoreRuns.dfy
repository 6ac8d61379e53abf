/** Restoring a whole archive by following Next, as a run of the protocol: which events are
    live at its end, which payload objects are there, and when every one of them opens. */
module RestoreRuns {
  import opened Common
  import opened Objects
  import opened Protocol
  import opened ProtocolNoLoss
  import opened ProtocolRefs
  import opened Restore

  ghost predicate Limits(limits: nat -> nat)
  {
    forall i :: 1 <= limits(i) <= MAX_LIMIT
  }

  /** The calls of a caller that follows Next until Complete. */
  ghost function FollowSteps(payloads: seq<PayloadEntry>, archive: Digest, offset: nat, limits: nat -> nat): seq<Step>
    requires Limits(limits)
    decreases |ContentsOf(archive)| - offset
  {
    var n := |Chunk(ContentsOf(archive), offset, limits(offset))|;
    RestoreSteps(payloads, archive, offset, limits(offset))
    + (if offset + n >= |ContentsOf(archive)| then [] else FollowSteps(payloads, archive, offset + n, limits))
  }

  /** The state with these events and objects, otherwise unchanged. */
  ghost predicate RestoredTo(e: Env, s: State, t: State, live: map<Id, Record>, archive: Digest, rs: seq<Record>)
    requires archive in s.catalog
  {
    && t == s.(live := live, active := t.active, history := t.history)
    && forall x :: x in t.active <==> x in s.active || Returns(e, s.catalog[archive].manifest.payloads, rs, x)
  }

  lemma ReturnsConcat(e: Env, entries: seq<PayloadEntry>, a: seq<Record>, b: seq<Record>, x: Slot)
    ensures Returns(e, entries, a + b, x) <==> Returns(e, entries, a, x) || Returns(e, entries, b, x)
  {
    hide Home;
    forall slot ensures LinkedBy(a + b, slot) <==> LinkedBy(a, slot) || LinkedBy(b, slot) {}
    hide LinkedBy;
  }

  /** One restore after another is the restore of both. */
  lemma RestoredTwice(e: Env, s: State, archive: Digest, first: seq<Step>, rest: seq<Step>, live: map<Id, Record>, a: seq<Record>, b: seq<Record>)
    requires archive in s.catalog && CanRun(e, s, first)
    requires var t := Reached(e, s, first);
             && RestoredTo(e, s, t, t.live, archive, a) && archive in t.catalog
             && CanRun(e, t, rest) && RestoredTo(e, t, Reached(e, t, rest), live, archive, b)
    ensures CanRun(e, s, first + rest) && RestoredTo(e, s, Reached(e, s, first + rest), live, archive, a + b)
  {
    hide Returns, CanRun, Reached;
    RunConcat(e, s, first, rest);
    forall x { ReturnsConcat(e, s.catalog[archive].manifest.payloads, a, b, x); }
  }

  lemma {:induction false} FollowRun(e: Env, s: State, archive: Digest, offset: nat, limits: nat -> nat)
    requires Inv(e, s) && s.restorer.Resting? && archive in s.catalog && Limits(limits) && offset <= |ContentsOf(archive)|
    ensures var steps := FollowSteps(s.catalog[archive].manifest.payloads, archive, offset, limits);
            && CanRun(e, s, steps)
            && RestoredTo(e, s, Reached(e, s, steps), MergeAll(s.live, Follow(ContentsOf(archive), offset, limits)), archive,
                          ContentsOf(archive)[offset..])
    decreases |ContentsOf(archive)| - offset
  {
    hide *;
    var records, payloads := ContentsOf(archive), s.catalog[archive].manifest.payloads;
    var chunk := Chunk(records, offset, limits(offset));
    var next := offset + |chunk|;
    var first := RestoreSteps(payloads, archive, offset, limits(offset));
    LimitAt(limits, offset);
    ChunkIsStretch(records, offset, limits(offset));
    FollowUnfolds(payloads, archive, offset, limits);
    MergeUnfolds(s.live, records, offset, limits);
    FirstRestore(e, s, archive, offset, limits(offset));
    if next < |records| {
      var t := Reached(e, s, first);
      RunKeeps(e, s, first);
      FollowRun(e, t, archive, next, limits);
      var rest := FollowSteps(payloads, archive, next, limits);
      RestoredTwice(e, s, archive, first, rest, MergeAll(t.live, Follow(records, next, limits)), chunk, records[next..]);
    } else {
      assert records[next..] == [] && chunk + [] == chunk;
    }
  }

  lemma LimitAt(limits: nat -> nat, i: nat)
    requires Limits(limits)
    ensures 1 <= limits(i) <= MAX_LIMIT && forall j :: 1 <= limits(j)
  {
  }

  lemma FirstRestore(e: Env, s: State, archive: Digest, offset: nat, limit: nat)
    requires Inv(e, s) && s.restorer.Resting? && archive in s.catalog && 1 <= limit <= MAX_LIMIT
    ensures var steps := RestoreSteps(s.catalog[archive].manifest.payloads, archive, offset, limit);
            var chunk := Chunk(ContentsOf(archive), offset, limit);
            && CanRun(e, s, steps) && RestoredTo(e, s, Reached(e, s, steps), Insert(s.live, chunk), archive, chunk)
            && var t := Reached(e, s, steps);
               t.live == Insert(s.live, chunk) && t.restorer.Resting? && t.catalog == s.catalog && t.engine == s.engine
  {
    hide Inv, CanRun, Reached, Returns, RestoreSteps, Chunk, Insert;
    RestoreSucceeds(e, s, archive, offset, limit);
  }

  lemma FollowUnfolds(payloads: seq<PayloadEntry>, archive: Digest, offset: nat, limits: nat -> nat)
    requires Limits(limits)
    ensures var n := |Chunk(ContentsOf(archive), offset, limits(offset))|;
            var first := RestoreSteps(payloads, archive, offset, limits(offset));
            FollowSteps(payloads, archive, offset, limits)
            == if offset + n >= |ContentsOf(archive)| then first else first + FollowSteps(payloads, archive, offset + n, limits)
  {
    hide Chunk, RestoreSteps;
  }

  lemma MergeUnfolds(live: map<Id, Record>, records: seq<Record>, offset: nat, limits: nat -> nat)
    requires Limits(limits)
    ensures var chunk := Chunk(records, offset, limits(offset));
            var next := Insert(live, chunk);
            MergeAll(live, Follow(records, offset, limits))
            == if offset + |chunk| >= |records| then next else MergeAll(next, Follow(records, offset + |chunk|, limits))
  {
    hide Chunk, Insert;
    var chunk := Chunk(records, offset, limits(offset));
    if offset + |chunk| >= |records| {
      assert [chunk][1..] == [];
    } else {
      var rest := Follow(records, offset + |chunk|, limits);
      assert ([chunk] + rest)[1..] == rest;
    }
  }

  // ---- Which objects come back ----

  /** A restore of everything writes this object: it is the home of the first reference to
      some object. */
  ghost predicate Comes(e: Env, refs: seq<Ref>, slot: Slot)
  {
    exists j :: 0 <= j < |refs| && FirstRef(refs, SlotOf(refs[j])) == Some(refs[j]) && refs[j].store in e.sources && Home(e, refs[j]) == slot
  }

  lemma LinkedInArchive(records: seq<Record>, ref: Ref)
    requires ref in AllRefs(records)
    ensures LinkedBy(records, SlotOf(ref))
  {
    var j :| 0 <= j < |AllRefs(records)| && AllRefs(records)[j] == ref;
    AllRefsSound(records, j);
    var r, i :| r in records && 0 <= i < |r.links| && r.links[i].ref == AllRefs(records)[j];
    assert Links(r, SlotOf(ref));
  }

  /** The entries of a bundle are the first references, so the whole archive returns what
      its references say. */
  lemma EntriesReturn(e: Env, vault: ObjectMap, entries: seq<PayloadEntry>, records: seq<Record>, slot: Slot)
    requires PayloadsHeld(e, vault, entries, AllRefs(records))
    ensures Returns(e, entries, records, slot) <==> Comes(e, AllRefs(records), slot)
  {
    hide Home, AllRefs, LinkedBy, AllOk;
    var refs := AllRefs(records);
    if Returns(e, entries, records, slot) {
      var i :| 0 <= i < |entries| && LinkedBy(records, SlotOf(entries[i].source))
               && entries[i].source.store in e.sources && Home(e, entries[i].source) == slot;
      FirstRefMember(refs, SlotOf(entries[i].source));
      var j :| 0 <= j < |refs| && refs[j] == entries[i].source;
    }
    if Comes(e, refs, slot) {
      var j :| 0 <= j < |refs| && FirstRef(refs, SlotOf(refs[j])) == Some(refs[j]) && refs[j].store in e.sources && Home(e, refs[j]) == slot;
      assert Seen(entries, SlotOf(refs[j]));
      var i :| 0 <= i < |entries| && SlotOf(entries[i].source) == SlotOf(refs[j]);
      assert entries[i].source == refs[j];
      LinkedInArchive(records, refs[j]);
    }
  }

  /** A link whose object was written under the key its store gives it now comes back. */
  lemma CanonicalComes(e: Env, refs: seq<Ref>, ref: Ref)
    requires FirstRef(refs, SlotOf(ref)).Some? && Canonical(e, FirstRef(refs, SlotOf(ref)).value)
    ensures Comes(e, refs, SlotOf(ref))
  {
    FirstRefMember(refs, SlotOf(ref));
    var first := FirstRef(refs, SlotOf(ref)).value;
    var j :| 0 <= j < |refs| && refs[j] == first;
  }

  /** From every reachable state, following Next through any archive with any limits can run
      to its end; then the live events are the old ones and the archived ones that were not
      live, and an object is there if and only if it was before or is the home of a first
      reference of the archive. */
  lemma {:induction false} WholeRestore(e: Env, clock: int, steps: seq<Step>, archive: Digest, limits: nat -> nat)
    requires CanRun(e, Start(clock), steps) && Limits(limits)
    requires var s := Reached(e, Start(clock), steps); s.restorer.Resting? && archive in s.catalog
    ensures var s := Reached(e, Start(clock), steps);
            var more := FollowSteps(s.catalog[archive].manifest.payloads, archive, 0, limits);
            && Distinct(Ids(ContentsOf(archive))) && CanRun(e, s, more)
            && var t := Reached(e, s, more);
               && t == s.(live := Restored(s.live, ContentsOf(archive)), active := t.active, history := t.history)
               && forall x :: x in t.active <==> x in s.active || Comes(e, AllRefs(ContentsOf(archive)), x)
  {
    hide CanRun, Reached, Inv, FollowSteps, Returns, Comes, Follow, MergeAll, Restored, PayloadsHeld, AllRefs, Distinct;
    RunKeeps(e, Start(clock), steps);
    var s := Reached(e, Start(clock), steps);
    var records := ContentsOf(archive);
    ArchiveHeld(e, s, archive);
    FollowRun(e, s, archive, 0, limits);
    FollowRestores(s.live, records, limits);
    assert records[0..] == records;
    forall x { EntriesReturn(e, s.vault, s.catalog[archive].manifest.payloads, records, x); }
  }

  lemma ArchiveHeld(e: Env, s: State, archive: Digest)
    requires Inv(e, s) && archive in s.catalog
    ensures Distinct(Ids(ContentsOf(archive)))
    ensures PayloadsHeld(e, s.vault, s.catalog[archive].manifest.payloads, AllRefs(ContentsOf(archive)))
  {
  }

  // ---- When they all open ----

  lemma {:induction false} OrderlyConcat(e: Env, s: State, a: seq<Step>, b: seq<Step>)
    requires CanRun(e, s, a) && CanRun(e, Reached(e, s, a), b) && CanRun(e, s, a + b)
    requires OrderlyRun(e, s, a) && OrderlyRun(e, Reached(e, s, a), b)
    ensures OrderlyRun(e, s, a + b)
    decreases |a|
  {
    hide Enabled, Next, Orderly;
    if a == [] {
      assert a + b == b;
    } else {
      assert (a + b)[1..] == a[1..] + b;
      OrderlyConcat(e, Next(e, s, a[0]), a[1..], b);
    }
  }

  /** Reading and copying are always orderly. */
  lemma {:induction false} QuietRun(e: Env, s: State, steps: seq<Step>)
    requires CanRun(e, s, steps) && forall i :: 0 <= i < |steps| ==> steps[i].RestoreRead? || steps[i].RestoreCopy?
    ensures OrderlyRun(e, s, steps)
    decreases |steps|
  {
    hide Enabled, Next;
    if steps != [] { QuietRun(e, Next(e, s, steps[0]), steps[1..]); }
  }

  lemma {:induction false} OnlyCopies(n: nat)
    ensures forall i :: 0 <= i < |CopySteps(n)| ==> CopySteps(n)[i].RestoreCopy?
  {
    if n > 0 { OnlyCopies(n - 1); }
  }

  /** A restore of records none of whose objects the collector has condemned is orderly. */
  lemma RestoreIsOrderly(e: Env, s: State, archive: Digest, offset: nat, limit: nat)
    requires Inv(e, s) && s.restorer.Resting? && archive in s.catalog && 1 <= limit <= MAX_LIMIT
    requires forall r :: r in ContentsOf(archive) ==> NoneCondemned(s.engine, r)
    ensures var steps := RestoreSteps(s.catalog[archive].manifest.payloads, archive, offset, limit);
            CanRun(e, s, steps) && OrderlyRun(e, s, steps)
  {
    hide Inv, CanRun, Reached, Enabled, Next, Returns, OrderlyRun, NoneCondemned, Chunk, Fresh;
    var pause := PauseSteps(s.catalog[archive].manifest.payloads, archive, offset, limit);
    PauseRun(e, s, archive, offset, limit);
    var t := Reached(e, s, pause);
    OnlyCopies(|Needed(s.catalog[archive].manifest.payloads, Chunk(ContentsOf(archive), offset, limit))|);
    QuietRun(e, s, pause);
    forall r | r in Fresh(t.live, t.restorer.chunk) ensures NoneCondemned(t.engine, r) {
      FreshFrom(t.live, t.restorer.chunk, r);
      ChunkFrom(ContentsOf(archive), offset, limit, r);
    }
    MergeStep(e, t);
    MergeIsOrderly(e, t);
    RunThen(e, s, pause, RestoreMerge);
    OrderlyConcat(e, s, pause, [RestoreMerge]);
  }

  lemma MergeIsOrderly(e: Env, s: State)
    requires Enabled(e, s, RestoreMerge) && MergeGuard(s)
    ensures CanRun(e, s, [RestoreMerge]) && OrderlyRun(e, s, [RestoreMerge])
  {
    hide Enabled, Next;
    assert CanRun(e, Next(e, s, RestoreMerge), []);
    assert [RestoreMerge][1..] == [];
  }

  lemma {:induction false} FollowIsOrderly(e: Env, s: State, archive: Digest, offset: nat, limits: nat -> nat)
    requires Inv(e, s) && s.restorer.Resting? && archive in s.catalog && Limits(limits) && offset <= |ContentsOf(archive)|
    requires forall r :: r in ContentsOf(archive) ==> NoneCondemned(s.engine, r)
    ensures var steps := FollowSteps(s.catalog[archive].manifest.payloads, archive, offset, limits);
            CanRun(e, s, steps) && OrderlyRun(e, s, steps)
    decreases |ContentsOf(archive)| - offset
  {
    hide Inv, CanRun, Reached, Returns, RestoreSteps, Chunk, Insert, Enabled, Next, OrderlyRun, NoneCondemned, FollowSteps, RestoredTo;
    var records, payloads := ContentsOf(archive), s.catalog[archive].manifest.payloads;
    var n := |Chunk(records, offset, limits(offset))|;
    var first := RestoreSteps(payloads, archive, offset, limits(offset));
    ChunkIsStretch(records, offset, limits(offset));
    FollowUnfolds(payloads, archive, offset, limits);
    RestoreIsOrderly(e, s, archive, offset, limits(offset));
    FirstRestore(e, s, archive, offset, limits(offset));
    var t := Reached(e, s, first);
    if offset + n < |records| {
      RunKeeps(e, s, first);
      FollowIsOrderly(e, t, archive, offset + n, limits);
      var rest := FollowSteps(payloads, archive, offset + n, limits);
      RunConcat(e, s, first, rest);
      OrderlyConcat(e, s, first, rest);
    }
  }

  /** After an orderly run and such a restore of a whole archive, whose objects no running
      collection has condemned, every archived event is live and every payload of every
      live event opens with the linked checksum. */
  lemma {:induction false} RestoredEventsOpen(e: Env, clock: int, steps: seq<Step>, archive: Digest, limits: nat -> nat, id: Id, i: nat)
    requires CanRun(e, Start(clock), steps) && OrderlyRun(e, Start(clock), steps) && Limits(limits)
    requires var s := Reached(e, Start(clock), steps);
             s.restorer.Resting? && archive in s.catalog && forall r :: r in ContentsOf(archive) ==> NoneCondemned(s.engine, r)
    ensures var s := Reached(e, Start(clock), steps);
            var more := FollowSteps(s.catalog[archive].manifest.payloads, archive, 0, limits);
            && CanRun(e, s, more)
            && var t := Reached(e, s, more);
               && (forall r :: r in ContentsOf(archive) ==> r.id in t.live)
               && (id in t.live && i < |t.live[id].links| ==> Opens(e, t.active, t.live[id].links[i].ref))
  {
    hide CanRun, Reached, Inv, RefInv, FollowSteps, OrderlyRun, NoneCondemned, Opens, Comes;
    RunKeepsRefs(e, Start(clock), steps) by { StartKept(e, clock); }
    var s := Reached(e, Start(clock), steps);
    FollowIsOrderly(e, s, archive, 0, limits);
    WholeRestore(e, clock, steps, archive, limits);
    var more := FollowSteps(s.catalog[archive].manifest.payloads, archive, 0, limits);
    RunKeepsRefs(e, s, more);
    var t := Reached(e, s, more);
    forall r | r in ContentsOf(archive) ensures r.id in t.live {
      var k :| 0 <= k < |ContentsOf(archive)| && ContentsOf(archive)[k] == r;
      assert r.id in IdSet(ContentsOf(archive));
    }
    if id in t.live && i < |t.live[id].links| { PresentOpens(e, t, id, i); }
  }

  lemma StartKept(e: Env, clock: int)
    ensures Inv(e, Start(clock)) && RefInv(e, Start(clock))
  {
  }

  lemma PresentOpens(e: Env, s: State, id: Id, i: nat)
    requires Inv(e, s) && RefInv(e, s) && id in s.live && i < |s.live[id].links|
    ensures Opens(e, s.active, s.live[id].links[i].ref)
  {
    assert LinksPresent(s.active, s.live[id]) && CanonicalLinks(e, s.live[id]);
  }
}
