/** Why restores and collections must not cross: from every state in which the payload of
    an archived event is ready for collection, a restore and a collection that overlap
    leave that event live without its payload. */
module Crossing {
  import opened Objects
  import opened Protocol
  import opened ProtocolNoLoss
  import Restore

  ghost predicate Collectible(e: Env, s: State, slot: Slot)
  {
    && slot in s.candidates && SlotOf(s.candidates[slot].ref) == slot && Ready(e, s.clock, s.clock, s.candidates[slot])
    && ValidAddressed(s.candidates[slot].ref) && slot.store in e.sources && !Referenced(s.live, slot)
  }

  lemma ListStep(e: Env, s: State, slot: Slot)
    requires s.engine.Idle? && Collectible(e, s, slot)
    ensures Enabled(e, s, List(s.clock, [s.candidates[slot]]))
    ensures Next(e, s, List(s.clock, [s.candidates[slot]])) == s.(engine := Listed(s.clock, [s.candidates[slot]]))
  {
  }

  lemma LookupStep(e: Env, s: State, slot: Slot)
    requires Collectible(e, s, slot) && s.engine == Listed(s.clock, [s.candidates[slot]])
    ensures Enabled(e, s, Lookup)
    ensures var t := Next(e, s, Lookup);
            && t == s.(engine := t.engine)
            && Pending(t.engine, slot) && !t.engine.verdict[slot] && slot !in t.engine.removed
  {
    assert s.engine.listed[0] == s.candidates[slot];
  }

  lemma RemoveEnabled(e: Env, s: State, slot: Slot)
    requires Collectible(e, s, slot) && Pending(s.engine, slot) && !s.engine.verdict[slot] && slot !in s.engine.removed
    ensures Enabled(e, s, Remove(slot))
  {
  }

  /** Whenever a restore that has copied its payloads meets a collection that has
      condemned one of them, deleting and then merging leaves a live event whose payload
      is gone; nothing in either command prevents it. */
  lemma CrossingDangles(e: Env, s: State, r: Record, i: nat)
    requires s.restorer.Restoring? && s.restorer.todo == [] && s.restorer.chunk == [r] && r.id !in s.live
    requires i < |r.links| && Enabled(e, s, Remove(SlotOf(r.links[i].ref)))
    ensures Dangles(e, s, [Remove(SlotOf(r.links[i].ref)), RestoreMerge], r, SlotOf(r.links[i].ref))
  {
    hide CanRun, Reached;
    var a := Remove(SlotOf(r.links[i].ref));
    var s1 := Next(e, s, a);
    assert s1.restorer == s.restorer && s1.live == s.live && SlotOf(r.links[i].ref) !in s1.active;
    assert Insert(s1.live, [r]) == s1.live[r.id := r] by { assert [r][1..] == []; }
    RunTwo(e, s, a, RestoreMerge);
  }

  /** A collection of that object alone, up to its deletion. */
  lemma CollectRun(e: Env, s: State, slot: Slot)
    requires s.engine.Idle? && Collectible(e, s, slot)
    ensures CanRun(e, s, [List(s.clock, [s.candidates[slot]]), Lookup])
    ensures var t := Reached(e, s, [List(s.clock, [s.candidates[slot]]), Lookup]);
            t == s.(engine := t.engine) && Enabled(e, t, Remove(slot))
  {
    hide Enabled, Next, CanRun, Reached;
    var a := List(s.clock, [s.candidates[slot]]);
    ListStep(e, s, slot);
    var s1 := Next(e, s, a);
    LookupStep(e, s1, slot);
    RemoveEnabled(e, Next(e, s1, Lookup), slot);
    RunTwo(e, s, a, Lookup);
  }

  /** The restore of one archived event, interrupted before its merge. */
  lemma RestorePauses(e: Env, s: State, archive: Digest, k: nat)
    requires Inv(e, s) && s.restorer.Resting? && archive in s.catalog && k < |ContentsOf(archive)|
    ensures exists steps :: Paused(e, s, steps, ContentsOf(archive)[k])
  {
    hide Inv, CanRun, Reached, Chunk, Restore.Returns, Restore.PauseSteps;
    Restore.PauseRun(e, s, archive, k, 1);
    OneRecord(ContentsOf(archive), k);
    assert Paused(e, s, Restore.PauseSteps(s.catalog[archive].manifest.payloads, archive, k, 1), ContentsOf(archive)[k]);
  }

  lemma OneRecord(records: seq<Record>, k: nat)
    requires k < |records|
    ensures Chunk(records, k, 1) == [records[k]]
  {
  }

  /** After these steps a restore has copied the payloads of r and not yet merged it. */
  ghost predicate Paused(e: Env, s: State, steps: seq<Step>, r: Record)
  {
    && CanRun(e, s, steps)
    && var t := Reached(e, s, steps);
       Restore.SameButActive(s, t) && t.restorer.Restoring? && t.restorer.chunk == [r] && t.restorer.todo == []
  }

  ghost predicate Dangles(e: Env, s: State, steps: seq<Step>, r: Record, slot: Slot)
  {
    CanRun(e, s, steps) && var t := Reached(e, s, steps); r.id in t.live && t.live[r.id] == r && slot !in t.active
  }

  lemma CollectDuringPause(e: Env, s: State, r: Record, i: nat)
    requires s.engine.Idle? && s.restorer.Restoring? && s.restorer.chunk == [r] && s.restorer.todo == [] && r.id !in s.live
    requires i < |r.links| && Collectible(e, s, SlotOf(r.links[i].ref))
    ensures exists steps :: Dangles(e, s, steps, r, SlotOf(r.links[i].ref))
  {
    hide Enabled, Next, CanRun, Reached, Collectible;
    var slot := SlotOf(r.links[i].ref);
    CollectRun(e, s, slot);
    assert slot in s.candidates by { CollectibleRow(e, s, slot); }
    var first := [List(s.clock, [s.candidates[slot]]), Lookup];
    var t := Reached(e, s, first);
    CrossingDangles(e, t, r, i);
    RunConcat(e, s, first, [Remove(slot), RestoreMerge]);
    assert Dangles(e, s, first + [Remove(slot), RestoreMerge], r, slot);
  }

  lemma CollectibleRow(e: Env, s: State, slot: Slot)
    requires Collectible(e, s, slot)
    ensures slot in s.candidates
  {
  }

  lemma CrossingFrom(e: Env, s: State, archive: Digest, r: Record, i: nat)
    requires Inv(e, s) && s.engine.Idle? && s.restorer.Resting?
    requires archive in s.catalog && r in ContentsOf(archive) && r.id !in s.live
    requires i < |r.links| && Collectible(e, s, SlotOf(r.links[i].ref))
    ensures exists steps :: Dangles(e, s, steps, r, SlotOf(r.links[i].ref))
  {
    hide Inv, CanRun, Reached, Collectible;
    var k :| 0 <= k < |ContentsOf(archive)| && ContentsOf(archive)[k] == r;
    RestorePauses(e, s, archive, k);
    var pause :| Paused(e, s, pause, r);
    var t := Reached(e, s, pause);
    SameCollectible(e, s, t, SlotOf(r.links[i].ref));
    CollectDuringPause(e, t, r, i);
    var rest :| Dangles(e, t, rest, r, SlotOf(r.links[i].ref));
    RunConcat(e, s, pause, rest);
    assert Dangles(e, s, pause + rest, r, SlotOf(r.links[i].ref));
  }

  /** The crossing is open in every reachable state with an archived event one of whose
      payloads is ready for collection: the event ends up live and the payload gone. */
  lemma {:induction false} CrossingIsOpen(e: Env, clock: int, steps: seq<Step>, id: Id, i: nat)
    requires CanRun(e, Start(clock), steps)
    requires var s := Reached(e, Start(clock), steps);
             && s.engine.Idle? && s.restorer.Resting? && id in s.history.last && id !in s.live
             && i < |s.history.last[id].links| && Collectible(e, s, SlotOf(s.history.last[id].links[i].ref))
    ensures var s := Reached(e, Start(clock), steps);
            exists more :: Dangles(e, s, more, s.history.last[id], SlotOf(s.history.last[id].links[i].ref))
  {
    hide Inv, CanRun, Reached, Collectible, Dangles;
    RunKeeps(e, Start(clock), steps);
    var s := Reached(e, Start(clock), steps);
    Restore.MappedIsHeld(e, s, id);
    CrossingFrom(e, s, s.mapping[id], s.history.last[id], i);
  }

  lemma SameCollectible(e: Env, s: State, t: State, slot: Slot)
    requires Restore.SameButActive(s, t) && Collectible(e, s, slot)
    ensures Collectible(e, t, slot)
  {
  }
}
