/** Concrete runs from the empty state: they meet the premises of the theorems about
    crossing commands, and show what goes wrong when a condition of the others fails. */
module Samples {
  import opened Common
  import opened Objects
  import opened Protocol
  import Policy
  import opened ProtocolNoLoss
  import opened PageRuns
  import Restore
  import RestoreRuns
  import Crossing

  /** Events and payloads expire one nanosecond after the event; one store without prefix. */
  function SampleEnv(): Env
  {
    Env(Policy.Config([], map[], 1, [], map[], 1), 10, map["s" := ""], "archive/")
  }

  function SampleBytes(): Content
  {
    Blob([1])
  }

  /** What Put returned when the prefix of the store was this. */
  function SampleRef(prefix: string): Ref
  {
    RefFor("s", prefix, SampleBytes(), "", Plain, None, "")
  }

  /** The same object with another checksum. */
  function WrongRef(prefix: string): Ref
  {
    SampleRef(prefix).(sum := Sum(Blob([2])))
  }

  function SampleRecord(links: seq<Link>): Record
  {
    Record(1, 0, "", "", "", Info, "", "", 0, false, "", links, "")
  }

  function OneLink(prefix: string): Record
  {
    SampleRecord([Link("body", SampleRef(prefix))])
  }

  function TwoLinks(prefix: string): Record
  {
    SampleRecord([Link("request", SampleRef(prefix)), Link("response", WrongRef(prefix))])
  }

  /** Records that link the stored object, by their first link at least. */
  ghost predicate Sample(prefix: string, r: Record)
  {
    r == OneLink(prefix) || r == TwoLinks(prefix)
  }

  /** Store the payload, log the event, wait until it has expired, archive and delete it,
      wait for the grace period. */
  function SampleSteps(prefix: string, r: Record): seq<Step>
  {
    [PutPayload("s", prefix, SampleBytes(), Plain), Ingest([r]), Tick(1)] + PageSteps(1, [r]) + [Tick(11)]
  }

  lemma SampleRefs(prefix: string, r: Record)
    requires Sample(prefix, r)
    ensures AllRefs([r]) == LinkRefs(r.links) && 1 <= |AllRefs([r])| <= 2 && AllRefs([r])[0] == SampleRef(prefix)
    ensures |AllRefs([r])| == 2 ==> AllRefs([r])[1] == WrongRef(prefix)
    ensures FirstRef(AllRefs([r]), SlotOf(SampleRef(prefix))) == Some(SampleRef(prefix))
  {
    assert [r][1..] == [] && AllRefs([]) == [];
    assert LinkRefs(r.links) + [] == LinkRefs(r.links);
  }

  lemma SampleStarts(prefix: string, r: Record)
    requires Sample(prefix, r)
    ensures var e := SampleEnv(); var steps := [PutPayload("s", prefix, SampleBytes(), Plain), Ingest([r]), Tick(1)];
            && CanRun(e, Start(0), steps)
            && var t := Reached(e, Start(0), steps);
               && t.live == map[1 := r] && t.history.last == map[1 := r] && t.candidates == map[] && t.clock == 1
               && t.active == map[SlotOf(SampleRef(prefix)) := SampleBytes()] && t.engine.Idle? && t.restorer.Resting?
  {
    hide CanRun, Reached;
    var e, put := SampleEnv(), PutPayload("s", prefix, SampleBytes(), Plain);
    var s1 := Next(e, Start(0), put);
    assert Insert(map[], [r]) == map[1 := r] by { assert [r][1..] == []; }
    var s2 := Next(e, s1, Ingest([r]));
    assert s2.history.last == map[1 := r];
    RunThree(e, Start(0), put, Ingest([r]), Tick(1));
  }

  lemma SamplePage(e: Env, s: State, prefix: string, r: Record)
    requires e == SampleEnv() && Sample(prefix, r) && s.live == map[1 := r] && s.clock == 1 && s.engine.Idle?
    requires s.active == map[SlotOf(SampleRef(prefix)) := SampleBytes()]
    ensures PageOk(e, s, 1, [r])
  {
    SampleRefs(prefix, r);
    assert Policy.Expired(e.config, r, 1);
    assert Copyable(e, s.active, SampleRef(prefix));
  }

  lemma SampleTimes(prefix: string, r: Record)
    requires Sample(prefix, r)
    ensures var times := Policy.PageTimes(SampleEnv().config, [r]); var slot := SlotOf(SampleRef(prefix)); slot in times && times[slot] == 1
  {
    var c, slot := SampleEnv().config, SlotOf(SampleRef(prefix));
    Policy.PageTimesCover(c, [r], r, r.links[0]);
    Policy.PageTimesExact(c, [r], slot);
  }

  /** The event is archived and deleted and its payload is ready for collection. */
  ghost predicate SampleState(prefix: string, r: Record, s: State)
  {
    && s.engine.Idle? && s.restorer.Resting? && s.live == map[] && s.history.last == map[1 := r]
    && Sum(EventsDoc([r])) in s.catalog && s.active == map[SlotOf(SampleRef(prefix)) := SampleBytes()]
    && Crossing.Collectible(SampleEnv(), s, SlotOf(SampleRef(prefix)))
  }

  lemma StagedSample(e: Env, s: State, t: State, prefix: string, r: Record)
    requires e == SampleEnv() && Sample(prefix, r) && s.clock == 1 && s.live == map[1 := r] && s.candidates == map[] && s.history.last == map[1 := r]
    requires s.engine.Idle? && s.restorer.Resting? && s.active == map[SlotOf(SampleRef(prefix)) := SampleBytes()]
    requires PageDone(e, s, t, 1, [r])
    ensures SampleState(prefix, r, t.(clock := 11))
  {
    hide Policy.PageTimes, AllRefs, FirstRef;
    var slot := SlotOf(SampleRef(prefix));
    SampleRefs(prefix, r);
    SampleTimes(prefix, r);
    assert slot in ToStage(JobOf(e, 1, [r]));
    assert t.candidates[slot] == StagedRow(None, SampleRef(prefix), 1, Sum(EventsDoc([r])), 1, false);
    assert IdSet([r]) == {1} by { assert [r][0].id == 1; }
    assert t.live == map[];
  }

  lemma SampleRun(prefix: string, r: Record)
    requires Sample(prefix, r)
    ensures CanRun(SampleEnv(), Start(0), SampleSteps(prefix, r))
    ensures SampleState(prefix, r, Reached(SampleEnv(), Start(0), SampleSteps(prefix, r)))
  {
    hide CanRun, Reached, Inv, PageSteps, PageOk, PageDone, SampleState, Sample, OneLink, TwoLinks;
    var e, first := SampleEnv(), [PutPayload("s", prefix, SampleBytes(), Plain), Ingest([r]), Tick(1)];
    SampleStarts(prefix, r);
    RunKeeps(e, Start(0), first) by { RestoreRuns.StartKept(e, 0); }
    var s := Reached(e, Start(0), first);
    SamplePage(e, s, prefix, r);
    PageRun(e, s, 1, [r]);
    RunConcat(e, Start(0), first, PageSteps(1, [r]));
    var t := Reached(e, s, PageSteps(1, [r]));
    StagedSample(e, s, t, prefix, r);
    PageClock(e, s, t, 1, [r]);
    RunThen(e, Start(0), first + PageSteps(1, [r]), Tick(11));
  }

  lemma PageClock(e: Env, s: State, t: State, now: int, eligible: seq<Record>)
    requires PageDone(e, s, t, now, eligible)
    ensures t.clock == s.clock
  {
  }

  // ---- A restore that crosses a collection ----

  /** A run from the empty state after which an overlapping restore and collection leave a
      live event whose payload is gone. */
  lemma CrossingHappens()
    ensures var e := SampleEnv(); var r := OneLink(""); var steps := SampleSteps("", r);
            CanRun(e, Start(0), steps) && exists more :: Crossing.Dangles(e, Reached(e, Start(0), steps), more, r, SlotOf(SampleRef("")))
  {
    hide CanRun, Reached, SampleSteps, Crossing.Dangles, Crossing.Collectible;
    var r := OneLink("");
    SampleRun("", r);
    Crossing.CrossingIsOpen(SampleEnv(), 0, SampleSteps("", r), 1, 0);
  }

  // ---- A prefix that was changed ----

  /** Collecting one object to the end. */
  function CollectSteps(now: int, c: Candidate): seq<Step>
  {
    [List(now, [c]), Lookup] + [Remove(SlotOf(c.ref)), Complete(SlotOf(c.ref)), Abort]
  }

  lemma CollectRun(e: Env, s: State, slot: Slot)
    requires s.engine.Idle? && Crossing.Collectible(e, s, slot)
    ensures slot in s.candidates && CanRun(e, s, CollectSteps(s.clock, s.candidates[slot]))
    ensures var t := Reached(e, s, CollectSteps(s.clock, s.candidates[slot]));
            t == s.(active := s.active - {slot}, candidates := s.candidates - {slot})
  {
    hide CanRun, Reached;
    var first := [List(s.clock, [s.candidates[slot]]), Lookup];
    Crossing.CollectRun(e, s, slot);
    var t := Reached(e, s, first);
    var u := Next(e, t, Remove(slot));
    RunThree(e, t, Remove(slot), Complete(slot), Abort);
    RunConcat(e, s, first, [Remove(slot), Complete(slot), Abort]);
  }

  /** The object was written under a longer prefix than the store has now; archive, delete
      and collect it, then restore the whole archive with any limits: the event is live, and
      its object is missing, because it was restored under the present prefix. */
  lemma ChangedPrefixDangles(limits: nat -> nat)
    requires RestoreRuns.Limits(limits)
    ensures var e := SampleEnv(); var r := OneLink("old/"); var slot := SlotOf(SampleRef("old/"));
            exists steps :: CanRun(e, Start(0), steps) && var t := Reached(e, Start(0), steps); t.live == map[1 := r] && slot !in t.active
  {
    hide CanRun, Reached, SampleSteps, CollectSteps, RestoreRuns.FollowSteps, Crossing.Collectible, RestoreRuns.Comes, Restore.Restored;
    var e, r, slot := SampleEnv(), OneLink("old/"), SlotOf(SampleRef("old/"));
    var archive := Sum(EventsDoc([r]));
    SampleRun("old/", r);
    var s := Reached(e, Start(0), SampleSteps("old/", r));
    CollectRun(e, s, slot);
    var steps := SampleSteps("old/", r) + CollectSteps(s.clock, s.candidates[slot]);
    RunConcat(e, Start(0), SampleSteps("old/", r), CollectSteps(s.clock, s.candidates[slot]));
    var t := Reached(e, Start(0), steps);
    RestoreRuns.WholeRestore(e, 0, steps, archive, limits);
    OldNeverComes();
    RestoredSample(r);
    var more := RestoreRuns.FollowSteps(t.catalog[archive].manifest.payloads, archive, 0, limits);
    RunConcat(e, Start(0), steps, more);
    assert CanRun(e, Start(0), steps + more);
  }

  lemma RestoredSample(r: Record)
    requires r.id == 1
    ensures Distinct(Ids([r])) && Restore.Restored(map[], [r]) == map[1 := r]
  {
    assert [r][0].id == 1;
    assert IdSet([r]) == {1};
    var all := Restore.Restored(map[], [r]);
    assert all[1] == Restore.ById([r], 1);
  }

  lemma OldNeverComes()
    ensures !RestoreRuns.Comes(SampleEnv(), AllRefs([OneLink("old/")]), SlotOf(SampleRef("old/")))
  {
    SampleRefs("old/", OneLink("old/"));
  }

  // ---- Two references that disagree ----

  /** A batch whose second link to an object has another checksum: it is archived and
      deleted, and the archive has no copy that matches the second link. */
  lemma SecondLinkUnverified()
    ensures var e := SampleEnv(); var r := TwoLinks(""); var steps := SampleSteps("", r); var archive := Sum(EventsDoc([r]));
            && CanRun(e, Start(0), steps)
            && var s := Reached(e, Start(0), steps);
               && archive in s.catalog && r.id !in s.live && Holds(s, archive, r)
               && Covered(s.vault, s.catalog[archive].manifest.payloads, r.links[0].ref)
               && !Covered(s.vault, s.catalog[archive].manifest.payloads, r.links[1].ref)
  {
    hide CanRun, Reached, SampleSteps, CatalogInv, Covered, AgreesWithFirst, Crossing.Collectible;
    var e, r := SampleEnv(), TwoLinks("");
    var archive := Sum(EventsDoc([r]));
    SampleRun("", r);
    RunKeeps(e, Start(0), SampleSteps("", r)) by { RestoreRuns.StartKept(e, 0); }
    var s := Reached(e, Start(0), SampleSteps("", r));
    assert r in [r];
    RecordedIsHeld(e, s, archive, r);
    SecondDisagrees();
    assert r.links[0].ref == SampleRef("") && r.links[1].ref == WrongRef("");
  }

  lemma SecondDisagrees()
    ensures AgreesWithFirst(AllRefs([TwoLinks("")]), SampleRef("")) && !AgreesWithFirst(AllRefs([TwoLinks("")]), WrongRef(""))
  {
    SampleRefs("", TwoLinks(""));
    assert Blob([1]).bytes[0] != Blob([2]).bytes[0];
  }
}
