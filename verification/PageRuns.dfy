/** A page of a retention run without faults, as a run of the protocol: from every state
    its expired events can be archived and deleted. */
module PageRuns {
  import opened Common
  import opened Objects
  import opened Protocol
  import Policy
  import opened ProtocolNoLoss
  import opened RetentionEngine

  function Copies(n: nat): seq<Step>
  {
    if n == 0 then [] else [CopyNext] + Copies(n - 1)
  }

  /** The calls for one page with n references. */
  function PageSteps(now: int, eligible: seq<Record>): seq<Step>
  {
    [Scan(now, eligible), Load(eligible), WriteEvents] + Copies(|AllRefs(eligible)|)
    + [WriteManifest(now), Catalog(false), Map, Stage(false), Delete]
  }

  /** Every object of the batch can be copied and verified by the first reference to it. */
  ghost predicate FirstsCopyable(e: Env, active: map<Slot, Content>, refs: seq<Ref>)
  {
    forall j :: 0 <= j < |refs| && FirstRef(refs, SlotOf(refs[j])) == Some(refs[j]) ==> Copyable(e, active, refs[j])
  }

  /** What Write's loop has not seen is a first reference. */
  lemma NextIsCopyable(e: Env, s: State)
    requires s.engine.Writing? && WritingInv(e, s.vault, s.engine) && s.engine.next < |AllRefs(s.engine.records)|
    requires FirstsCopyable(e, s.active, AllRefs(s.engine.records))
    ensures var ref := AllRefs(s.engine.records)[s.engine.next]; Seen(s.engine.entries, SlotOf(ref)) || Copyable(e, s.active, ref)
  {
    hide Copyable, AllOk, AllFirst;
    var refs, k := AllRefs(s.engine.records), s.engine.next;
    if !Seen(s.engine.entries, SlotOf(refs[k])) {
      forall j | 0 <= j < k ensures SlotOf(refs[j]) != SlotOf(refs[k]) { assert refs[..k][j] == refs[j]; }
      FirstRefAt(refs, k);
    }
  }

  /** Only the archive and the position of the engine change while a bundle is written. */
  ghost predicate WritesOn(s: State, t: State)
  {
    && t == s.(vault := t.vault, engine := t.engine)
    && s.engine.Writing? && t.engine.Writing? && t.engine.job == s.engine.job && t.engine.records == s.engine.records
  }

  lemma InvWriting(e: Env, s: State)
    requires Inv(e, s) && s.engine.Writing?
    ensures WritingInv(e, s.vault, s.engine) && s.engine.next <= |AllRefs(s.engine.records)|
  {
  }

  lemma {:induction false} CopiesRun(e: Env, s: State)
    requires Inv(e, s) && s.engine.Writing? && s.engine.next <= |AllRefs(s.engine.records)|
    requires FirstsCopyable(e, s.active, AllRefs(s.engine.records))
    ensures var steps := Copies(|AllRefs(s.engine.records)| - s.engine.next);
            && CanRun(e, s, steps)
            && WritesOn(s, Reached(e, s, steps)) && Reached(e, s, steps).engine.next == |AllRefs(s.engine.records)|
    decreases |AllRefs(s.engine.records)| - s.engine.next
  {
    hide Inv, Enabled, Next, WritingInv, FirstsCopyable, AllRefs;
    var n := |AllRefs(s.engine.records)| - s.engine.next;
    if n > 0 {
      InvWriting(e, s);
      NextIsCopyable(e, s);
      CopyNextStep(e, s);
      StepKeeps(e, s, CopyNext);
      CopiesRun(e, Next(e, s, CopyNext));
      RunOne(e, s, CopyNext, Copies(n - 1));
    }
  }

  // ---- The steps around the copies ----

  ghost predicate PageOk(e: Env, s: State, now: int, eligible: seq<Record>)
  {
    && s.engine.Idle? && now <= s.clock && eligible != [] && Distinct(Ids(eligible))
    && (forall r :: r in eligible ==> r.id in s.live && s.live[r.id] == r && Policy.Expired(e.config, r, now))
    && FirstsCopyable(e, s.active, AllRefs(eligible))
  }

  function JobOf(e: Env, now: int, eligible: seq<Record>): Job
  {
    Job(now, eligible, Policy.PageTimes(e.config, eligible))
  }

  /** Three steps lead to the copies. */
  lemma OpeningRun(e: Env, s: State, now: int, eligible: seq<Record>)
    requires PageOk(e, s, now, eligible)
    ensures var steps := [Scan(now, eligible), Load(eligible), WriteEvents];
            && CanRun(e, s, steps)
            && var t := Reached(e, s, steps);
               t == s.(vault := t.vault, engine := Writing(JobOf(e, now, eligible), eligible, 0, []))
  {
    hide FirstsCopyable, CanRun, Reached;
    var a, b := Scan(now, eligible), Load(eligible);
    SameAsItself(eligible);
    var s1 := Next(e, s, a);
    var s2 := Next(e, s1, b);
    assert s2 == s.(engine := Loaded(JobOf(e, now, eligible), eligible));
    WriteEventsStep(e, s2);
    RunThree(e, s, a, b, WriteEvents);
  }

  /** The manifest, the catalog entry and the mapping make the page deletable. */
  lemma RecordingRun(e: Env, s: State, createdAt: int)
    requires Inv(e, s) && s.engine.Writing? && s.engine.next == |AllRefs(s.engine.records)|
    ensures var steps := [WriteManifest(createdAt), Catalog(false), Map];
            && CanRun(e, s, steps)
            && var t := Reached(e, s, steps);
               && t == s.(vault := t.vault, catalog := t.catalog, mapping := t.mapping, engine := t.engine)
               && t.engine.Recorded? && Mapped(t) && t.engine.job == s.engine.job && t.engine.records == s.engine.records
               && t.engine.archive == Sum(EventsDoc(s.engine.records)) && t.engine.archive in t.catalog
  {
    hide Inv, CanRun, Reached, Mapped, AllRefs, ManifestFor, ReceiptFor, Put;
    var a := WriteManifest(createdAt);
    WriteManifestStep(e, s, createdAt);
    StepKeeps(e, s, a);
    var s1 := Next(e, s, a);
    StepKeeps(e, s1, Catalog(false));
    var s2 := Next(e, s1, Catalog(false));
    assert s2 == s1.(catalog := s2.catalog, engine := s2.engine) && s2.engine.Catalogued? && s2.engine.job == s.engine.job && s2.engine.records == s.engine.records;
    MapCoversInv(e, s2);
    StepKeeps(e, s2, Map);
    var s3 := Next(e, s2, Map);
    assert s3.engine.records == s.engine.records;
    RecordedArchive(e, s3);
    RunThree(e, s, a, Catalog(false), Map);
  }

  lemma RecordedArchive(e: Env, s: State)
    requires Inv(e, s) && s.engine.Recorded?
    ensures s.engine.archive == Sum(EventsDoc(s.engine.records)) && s.engine.archive in s.catalog
  {
  }

  /** Staging keeps the mapping, so the deletion goes through. */
  lemma DeletingRun(e: Env, s: State)
    requires Mapped(s)
    ensures CanRun(e, s, [Stage(false), Delete])
    ensures var t := Reached(e, s, [Stage(false), Delete]);
            && t == s.(live := s.live - IdSet(s.engine.job.eligible), candidates := t.candidates, engine := Idle, history := t.history)
            && t.candidates == StageAll(s, s.engine.job, s.engine.archive, false).candidates && t.history.last == s.history.last
  {
    hide CanRun, Reached, Coverage;
    var s1 := Next(e, s, Stage(false));
    assert s1 == StageAll(s, s.engine.job, s.engine.archive, false).(engine := Staged(s.engine.job, s.engine.records, s.engine.archive));
    assert Enabled(e, s1, Delete);
    RunTwo(e, s, Stage(false), Delete);
  }

  /** The page is in a catalogued archive, its payloads are staged and its events are gone. */
  ghost predicate PageDone(e: Env, s: State, t: State, now: int, eligible: seq<Record>)
  {
    var archive := Sum(EventsDoc(eligible));
    && t == s.(live := s.live - IdSet(eligible), catalog := t.catalog, mapping := t.mapping, vault := t.vault,
               candidates := t.candidates, history := t.history)
    && archive in t.catalog && t.history.last == s.history.last
    && t.candidates == StageAll(s, JobOf(e, now, eligible), archive, false).candidates
  }

  lemma StagesAlike(s: State, t: State, job: Job, archive: Digest)
    requires t.candidates == s.candidates && t.clock == s.clock
    ensures StageAll(t, job, archive, false).candidates == StageAll(s, job, archive, false).candidates
  {
  }

  /** From every state that meets the invariant, a page of expired events whose payloads are
      there can be archived and deleted. */
  lemma PageRun(e: Env, s: State, now: int, eligible: seq<Record>)
    requires Inv(e, s) && PageOk(e, s, now, eligible)
    ensures var steps := PageSteps(now, eligible); CanRun(e, s, steps) && PageDone(e, s, Reached(e, s, steps), now, eligible)
  {
    hide Inv, Enabled, Next, CanRun, Reached, AllRefs, Copies, FirstsCopyable, Mapped, StageAll, IdSet;
    var opening := [Scan(now, eligible), Load(eligible), WriteEvents];
    OpeningRun(e, s, now, eligible);
    RunKeeps(e, s, opening);
    var s1 := Reached(e, s, opening);
    var copies := Copies(|AllRefs(eligible)|);
    CopiesRun(e, s1);
    RunConcat(e, s, opening, copies);
    RunKeeps(e, s1, copies);
    var s2 := Reached(e, s1, copies);
    var recording := [WriteManifest(now), Catalog(false), Map];
    RecordingRun(e, s2, now);
    RunConcat(e, s, opening + copies, recording);
    var s3 := Reached(e, s2, recording);
    DeletingRun(e, s3);
    RunConcat(e, s, opening + copies + recording, [Stage(false), Delete]);
    StagesAlike(s, s3, s3.engine.job, s3.engine.archive);
    assert PageSteps(now, eligible) == opening + copies + recording + [Stage(false), Delete];
  }
}
