/** Reference integrity: every payload linked by a live event can be opened and has the
    linked checksum, as long as references and collections do not cross. */
module ProtocolRefs {
  import opened Objects
  import opened Protocol
  import opened ProtocolNoLoss

  // ---- What the environment owes ----

  /** The reference is the one Put returns for its bytes on its store. */
  ghost predicate Canonical(e: Env, ref: Ref)
  {
    ref.store in e.sources && ref.key == Addressed(e.sources[ref.store], ref.sum, ref.compression.Gzip?)
  }

  ghost predicate CanonicalLinks(e: Env, r: Record)
  {
    forall i :: 0 <= i < |r.links| ==> Canonical(e, r.links[i].ref)
  }

  ghost predicate LinksPresent(active: map<Slot, Content>, r: Record)
  {
    forall i :: 0 <= i < |r.links| ==> SlotOf(r.links[i].ref) in active
  }

  /** An object the collector has found unreferenced and not finished with. */
  ghost predicate Condemned(p: Phase, slot: Slot)
  {
    Pending(p, slot) && !p.verdict[slot]
  }

  ghost predicate NoneCondemned(p: Phase, r: Record)
  {
    forall i :: 0 <= i < |r.links| ==> !Condemned(p, SlotOf(r.links[i].ref))
  }

  /** The records an insertion adds; records of live events are not inserted again. */
  ghost function Fresh(live: map<Id, Record>, rs: seq<Record>): set<Record>
  {
    set id | id in Insert(live, rs) && id !in live :: Insert(live, rs)[id]
  }

  /** Ingested references name stored objects by the key Put gives them, and none that the
      collector has condemned. */
  ghost predicate IngestGuard(e: Env, s: State, batch: seq<Record>)
  {
    forall r :: r in Fresh(s.live, batch) ==> CanonicalLinks(e, r) && LinksPresent(s.active, r) && NoneCondemned(s.engine, r)
  }

  /** A restore does not merge a link to an object the collector has condemned. */
  ghost predicate MergeGuard(s: State)
  {
    s.restorer.Restoring? ==> forall r :: r in Fresh(s.live, s.restorer.chunk) ==> NoneCondemned(s.engine, r)
  }

  /** The collector does not delete an object that a running restore links and has already
      copied. */
  ghost predicate RemoveGuard(s: State, slot: Slot)
  {
    s.restorer.Restoring? ==> forall r :: r in s.restorer.chunk && Links(r, slot) ==> Seen(s.restorer.todo, slot)
  }

  ghost predicate Orderly(e: Env, s: State, a: Step)
  {
    match a
    case Ingest(batch) => IngestGuard(e, s, batch)
    case RestoreMerge => MergeGuard(s)
    case Remove(slot) => RemoveGuard(s, slot)
    case _ => true
  }

  ghost predicate OrderlyRun(e: Env, s: State, steps: seq<Step>)
    requires CanRun(e, s, steps)
    decreases |steps|
  {
    steps == [] || (Orderly(e, s, steps[0]) && OrderlyRun(e, Next(e, s, steps[0]), steps[1..]))
  }

  // ---- The invariant ----

  ghost predicate ActiveAddressed(active: map<Slot, Content>)
  {
    forall x :: x in active ==> x.key.Addressed? && x.key.sum.Sum? && active[x] == Pack(x.key.sum.of, x.key.gz)
  }

  ghost predicate LivePresent(s: State)
  {
    forall id :: id in s.live ==> LinksPresent(s.active, s.live[id])
  }

  ghost predicate StoredCanonical(e: Env, s: State)
  {
    forall r :: r in s.history.stored ==> CanonicalLinks(e, r)
  }

  ghost predicate SourcesCanonical(e: Env, entries: seq<PayloadEntry>)
  {
    forall i :: 0 <= i < |entries| ==> Canonical(e, entries[i].source)
  }

  ghost predicate ArchiveOrigin(e: Env, s: State)
  {
    forall a :: a in s.catalog ==> SourcesCanonical(e, s.catalog[a].manifest.payloads)
  }

  ghost predicate EngineOrigin(e: Env, s: State)
  {
    && (s.engine.Writing? ==> SourcesCanonical(e, s.engine.entries))
    && (s.engine.Written? || s.engine.Catalogued? ==> SourcesCanonical(e, s.engine.receipt.manifest.payloads))
  }

  ghost predicate VerdictsHold(s: State)
  {
    forall slot :: Condemned(s.engine, slot) ==> !Referenced(s.live, slot)
  }

  /** A restore in progress has copied, or will copy, every object its chunk links. */
  ghost predicate Provided(active: map<Slot, Content>, todo: seq<PayloadEntry>, r: Record)
  {
    forall i :: 0 <= i < |r.links| ==> SlotOf(r.links[i].ref) in active || Seen(todo, SlotOf(r.links[i].ref))
  }

  ghost predicate RestoreInv(e: Env, s: State)
  {
    s.restorer.Restoring? ==>
      && SourcesCanonical(e, s.restorer.todo)
      && forall r :: r in s.restorer.chunk ==> r in s.history.stored && Provided(s.active, s.restorer.todo, r)
  }

  ghost predicate RefInv(e: Env, s: State)
  {
    && ActiveAddressed(s.active) && LivePresent(s) && StoredCanonical(e, s)
    && ArchiveOrigin(e, s) && EngineOrigin(e, s) && VerdictsHold(s) && RestoreInv(e, s)
  }

  // ---- Where restore puts a payload ----

  /** A restored object lands on the key its events link if and only if that key is the
      one the destination store gives those bytes; Restore checks checksum and size, not
      the key. */
  lemma RestoreHitsLinkedKey(e: Env, s: State, entry: PayloadEntry)
    requires RestoreCopyable(e, s, entry)
    ensures RestoredSlot(e, entry, ArchivedPayload(s.vault, entry).value) == SlotOf(entry.source)
            <==> Canonical(e, entry.source)
  {
  }

  // ---- Steps that add objects ----

  lemma ActiveGrows(e: Env, s: State, t: State)
    requires RefInv(e, s) && ActiveAddressed(t.active) && forall x :: x in s.active ==> x in t.active
    requires t == s.(active := t.active)
    ensures RefInv(e, t)
  {
  }

  lemma PutKeeps(e: Env, s: State, a: Step)
    requires RefInv(e, s) && Enabled(e, s, a) && a.PutPayload?
    ensures RefInv(e, Next(e, s, a))
  {
    ActiveGrows(e, s, Next(e, s, a));
  }

  lemma ProvidedAfterCopy(active: map<Slot, Content>, todo: seq<PayloadEntry>, slot: Slot, c: Content, r: Record)
    requires todo != [] && slot == SlotOf(todo[0].source) && Provided(active, todo, r)
    ensures Provided(active[slot := c], todo[1..], r)
  {
  }

  lemma RestoreCopyKeeps(e: Env, s: State)
    requires RefInv(e, s) && Enabled(e, s, RestoreCopy)
    ensures RefInv(e, Next(e, s, RestoreCopy))
  {
    var todo := s.restorer.todo;
    var c := ArchivedPayload(s.vault, todo[0]).value;
    var t := Next(e, s, RestoreCopy);
    RestoreHitsLinkedKey(e, s, todo[0]);
    ActiveGrows(e, s, s.(active := t.active));
    forall r | r in t.restorer.chunk ensures Provided(t.active, t.restorer.todo, r) {
      ProvidedAfterCopy(s.active, todo, SlotOf(todo[0].source), Pack(c, todo[0].source.compression.Gzip?), r);
    }
  }

  // ---- Steps that add events ----

  lemma {:induction false} InsertOrigin(live: map<Id, Record>, rs: seq<Record>, id: Id)
    requires id in Insert(live, rs)
    ensures (id in live && Insert(live, rs)[id] == live[id]) || Insert(live, rs)[id] in rs
    decreases |rs|
  {
    if rs != [] {
      InsertOrigin(if rs[0].id in live then live else live[rs[0].id := rs[0]], rs[1..], id);
    }
  }

  lemma InsertKeepsVerdicts(s: State, rs: seq<Record>)
    requires VerdictsHold(s)
    ensures VerdictsHold(InsertInto(s, rs)) <==> forall r :: r in Fresh(s.live, rs) ==> NoneCondemned(s.engine, r)
  {
    InsertKeepsLive(s.live, rs);
    var t := InsertInto(s, rs);
    if forall r :: r in Fresh(s.live, rs) ==> NoneCondemned(s.engine, r) {
      forall slot | Condemned(t.engine, slot) ensures !Referenced(t.live, slot) {
        assert !Referenced(s.live, slot);
        forall id | id in t.live ensures !Links(t.live[id], slot) {
          assert id !in s.live ==> t.live[id] in Fresh(s.live, rs) && NoneCondemned(s.engine, t.live[id]);
        }
      }
    }
    if VerdictsHold(t) {
      forall r | r in Fresh(s.live, rs) ensures NoneCondemned(s.engine, r) {
        var id :| id in t.live && id !in s.live && t.live[id] == r;
        forall i | 0 <= i < |r.links| ensures !Condemned(s.engine, SlotOf(r.links[i].ref)) {
          assert Links(t.live[id], SlotOf(r.links[i].ref));
          assert Referenced(t.live, SlotOf(r.links[i].ref));
        }
      }
    }
  }

  /** Inserting keeps the rest exactly when the new records name present objects by their keys. */
  lemma InsertKeepsPresent(e: Env, s: State, rs: seq<Record>)
    requires LivePresent(s) && StoredCanonical(e, s)
    ensures LivePresent(InsertInto(s, rs)) && StoredCanonical(e, InsertInto(s, rs))
            <==> forall r :: r in Fresh(s.live, rs) ==> CanonicalLinks(e, r) && LinksPresent(s.active, r)
  {
    InsertKeepsLive(s.live, rs);
    var t := InsertInto(s, rs);
    forall r ensures r in t.history.stored <==> r in s.history.stored || r in Fresh(s.live, rs) {}
    forall id | id in t.live ensures t.live[id] == (if id in s.live then s.live[id] else t.live[id]) && (id !in s.live ==> t.live[id] in Fresh(s.live, rs)) {}
    if LivePresent(t) && StoredCanonical(e, t) {
      forall r | r in Fresh(s.live, rs) ensures CanonicalLinks(e, r) && LinksPresent(s.active, r) {
        var id :| id in t.live && id !in s.live && t.live[id] == r;
        assert LinksPresent(t.active, t.live[id]);
      }
    }
  }

  lemma InsertKeepsRefs(e: Env, s: State, rs: seq<Record>)
    requires RefInv(e, s)
    ensures RefInv(e, InsertInto(s, rs)) <==> IngestGuard(e, s, rs)
  {
    hide LivePresent, StoredCanonical, VerdictsHold, Fresh, CanonicalLinks, LinksPresent, NoneCondemned;
    InsertKeepsPresent(e, s, rs);
    InsertKeepsVerdicts(s, rs);
    assert RestoreInv(e, InsertInto(s, rs));
  }

  lemma IngestKeepsRefs(e: Env, s: State, batch: seq<Record>)
    requires RefInv(e, s)
    ensures RefInv(e, Next(e, s, Ingest(batch))) <==> IngestGuard(e, s, batch)
  {
    hide RefInv, IngestGuard;
    InsertKeepsRefs(e, s, batch);
  }

  lemma MergeReady(e: Env, s: State, r: Record)
    requires RefInv(e, s) && s.restorer.Restoring? && s.restorer.todo == [] && r in s.restorer.chunk
    ensures CanonicalLinks(e, r) && LinksPresent(s.active, r)
  {
  }

  lemma {:induction false} FreshFrom(live: map<Id, Record>, rs: seq<Record>, r: Record)
    requires r in Fresh(live, rs)
    ensures r in rs
  {
    var id :| id in Insert(live, rs) && id !in live && Insert(live, rs)[id] == r;
    InsertOrigin(live, rs, id);
  }

  lemma RestorerIrrelevant(e: Env, s: State)
    requires s.restorer.Restoring? && RestoreInv(e, s)
    ensures RefInv(e, s.(restorer := Resting)) <==> RefInv(e, s)
  {
    var t := s.(restorer := Resting);
    assert LivePresent(t) <==> LivePresent(s);
    assert VerdictsHold(t) <==> VerdictsHold(s);
  }

  lemma MergeKeeps(e: Env, s: State)
    requires RefInv(e, s) && Enabled(e, s, RestoreMerge)
    ensures RefInv(e, Next(e, s, RestoreMerge)) <==> MergeGuard(s)
  {
    hide CanonicalLinks, LinksPresent, NoneCondemned, Fresh, LivePresent, StoredCanonical, VerdictsHold, InsertInto, ActiveAddressed;
    var chunk := s.restorer.chunk;
    forall r | r in Fresh(s.live, chunk) ensures CanonicalLinks(e, r) && LinksPresent(s.active, r) {
      FreshFrom(s.live, chunk, r);
      MergeReady(e, s, r);
    }
    InsertKeepsRefs(e, s, chunk);
    RestoreInvKept(e, s, chunk);
    RestorerIrrelevant(e, InsertInto(s, chunk));
  }

  lemma RestoreInvKept(e: Env, s: State, rs: seq<Record>)
    requires RestoreInv(e, s)
    ensures RestoreInv(e, InsertInto(s, rs)) && InsertInto(s, rs).restorer == s.restorer
  {
  }

  // ---- Writing archives ----

  lemma RecordsCanonical(e: Env, s: State, j: nat)
    requires Inv(e, s) && RefInv(e, s) && HasRecords(s.engine) && j < |AllRefs(s.engine.records)|
    ensures Canonical(e, AllRefs(s.engine.records)[j])
  {
    AllRefsSound(s.engine.records, j);
    var r, i :| r in s.engine.records && 0 <= i < |r.links| && r.links[i].ref == AllRefs(s.engine.records)[j];
    assert CanonicalLinks(e, r);
  }

  lemma CopyKeepsRefs(e: Env, s: State)
    requires Inv(e, s) && RefInv(e, s) && Enabled(e, s, CopyNext)
    ensures RefInv(e, Next(e, s, CopyNext))
  {
    hide Inv, ActiveAddressed, LivePresent, StoredCanonical, ArchiveOrigin, VerdictsHold, RestoreInv, AllRefs;
    RecordsCanonical(e, s, s.engine.next);
    CopyFrame(e, s);
    ArchiveFrame(e, s, CopyOne(e, s));
  }

  /** Steps that only write archive objects and move the engine on. */
  lemma ArchiveFrame(e: Env, s: State, t: State)
    requires RefInv(e, s) && t == s.(vault := t.vault, engine := t.engine)
    requires EngineOrigin(e, t) && !t.engine.Collecting?
    ensures RefInv(e, t)
  {
  }

  lemma CatalogKeepsRefs(e: Env, s: State, replace: bool)
    requires Inv(e, s) && RefInv(e, s) && Enabled(e, s, Catalog(replace))
    ensures RefInv(e, Next(e, s, Catalog(replace)))
  {
    hide Inv;
    var t := Next(e, s, Catalog(replace));
    ArchiveFrame(e, s, s.(engine := t.engine));
  }

  // ---- Collecting ----

  lemma LookupKeepsRefs(e: Env, s: State)
    requires RefInv(e, s) && Enabled(e, s, Lookup)
    ensures RefInv(e, Next(e, s, Lookup))
  {
  }

  lemma RemoveKeepsRest(e: Env, s: State, slot: Slot)
    requires RefInv(e, s) && Enabled(e, s, Remove(slot))
    ensures var t := Next(e, s, Remove(slot)); RefInv(e, t) <==> RestoreInv(e, t)
  {
    var t := Next(e, s, Remove(slot));
    assert Condemned(s.engine, slot);
    forall id | id in t.live ensures LinksPresent(t.active, t.live[id]) {
      assert LinksPresent(s.active, s.live[id]) && !Links(s.live[id], slot);
    }
    forall x | Condemned(t.engine, x) ensures !Referenced(t.live, x) { assert Condemned(s.engine, x); }
  }

  lemma RemoveKeepsRefs(e: Env, s: State, slot: Slot)
    requires RefInv(e, s) && Enabled(e, s, Remove(slot))
    ensures RefInv(e, Next(e, s, Remove(slot))) <==> RemoveGuard(s, slot)
  {
    hide RefInv, Seen;
    RemoveKeepsRest(e, s, slot);
    assert RestoreInv(e, s) by { RefInvRestore(e, s); }
    RemoveKeepsRestore(e, s, Next(e, s, Remove(slot)), slot);
  }

  lemma RefInvRestore(e: Env, s: State)
    requires RefInv(e, s)
    ensures RestoreInv(e, s)
  {
  }

  lemma RemoveKeepsRestore(e: Env, s: State, t: State, slot: Slot)
    requires RestoreInv(e, s) && t.active == s.active - {slot} && t.restorer == s.restorer && t.history.stored == s.history.stored
    ensures RestoreInv(e, t) <==> RemoveGuard(s, slot)
  {
    hide Seen;
    if s.restorer.Restoring? {
      forall r | r in s.restorer.chunk
        ensures Provided(t.active, t.restorer.todo, r) <==> (Links(r, slot) ==> Seen(s.restorer.todo, slot))
      {
        assert Provided(s.active, s.restorer.todo, r);
      }
    }
  }

  lemma DeleteKeepsRefs(e: Env, s: State)
    requires RefInv(e, s) && Enabled(e, s, Delete)
    ensures RefInv(e, Next(e, s, Delete))
  {
    var t := Next(e, s, Delete);
    forall id | id in t.live ensures LinksPresent(t.active, t.live[id]) { assert LinksPresent(s.active, s.live[id]); }
  }

  // ---- Reading an archive back ----

  lemma {:induction false} NeededHas(entries: seq<PayloadEntry>, chunk: seq<Record>, slot: Slot)
    requires Seen(entries, slot) && exists r :: r in chunk && Links(r, slot)
    ensures Seen(Needed(entries, chunk), slot)
  {
    if SlotOf(entries[0].source) == slot {
      assert SlotOf(Needed(entries, chunk)[0].source) == slot;
    } else {
      var j :| 0 <= j < |entries| && SlotOf(entries[j].source) == slot;
      assert entries[1..][j - 1] == entries[j];
      NeededHas(entries[1..], chunk, slot);
      var rest := Needed(entries[1..], chunk);
      var k :| 0 <= k < |rest| && SlotOf(rest[k].source) == slot;
      var d := |Needed(entries, chunk)| - |rest|;
      assert Needed(entries, chunk)[k + d] == rest[k];
    }
  }

  lemma {:induction false} NeededFrom(e: Env, entries: seq<PayloadEntry>, chunk: seq<Record>)
    requires SourcesCanonical(e, entries)
    ensures SourcesCanonical(e, Needed(entries, chunk))
  {
    if entries != [] { NeededFrom(e, entries[1..], chunk); }
  }

  lemma ChunkFrom(records: seq<Record>, offset: nat, limit: nat, r: Record)
    requires r in Chunk(records, offset, limit)
    ensures r in records
  {
  }

  lemma ReadProvides(s: State, m: Manifest, records: seq<Record>, chunk: seq<Record>, r: Record)
    requires AllSeen(m.payloads, AllRefs(records)) && r in records && r in chunk
    ensures Provided(s.active, Needed(m.payloads, chunk), r)
  {
    forall i | 0 <= i < |r.links| ensures Seen(Needed(m.payloads, chunk), SlotOf(r.links[i].ref)) {
      AllRefsComplete(records, r, r.links[i]);
      var j :| 0 <= j < |AllRefs(records)| && AllRefs(records)[j] == r.links[i].ref;
      assert Seen(m.payloads, SlotOf(AllRefs(records)[j]));
      assert Links(r, SlotOf(r.links[i].ref));
      NeededHas(m.payloads, chunk, SlotOf(r.links[i].ref));
    }
  }

  lemma ReadKeeps(e: Env, s: State, a: Digest, offset: nat, limit: nat)
    requires Inv(e, s) && RefInv(e, s) && Enabled(e, s, RestoreRead(a, offset, limit))
    ensures RefInv(e, Next(e, s, RestoreRead(a, offset, limit)))
  {
    var t := Next(e, s, RestoreRead(a, offset, limit));
    var m := s.catalog[a].manifest;
    assert ProtocolNoLoss.Complete(e, s.vault, s.catalog[a], ContentsOf(a));
    NeededFrom(e, m.payloads, t.restorer.chunk);
    forall r | r in t.restorer.chunk ensures r in t.history.stored && Provided(t.active, t.restorer.todo, r) {
      ChunkFrom(ContentsOf(a), offset, limit, r);
      ReadProvides(s, m, ContentsOf(a), t.restorer.chunk, r);
    }
  }

  // ---- Every orderly run ----

  ghost predicate Neutral(a: Step)
  {
    a.Tick? || a.Leftover? || a.Scan? || a.Load? || a.Map? || a.Stage? || a.Abort? || a.List?
    || a.Complete? || a.Fail? || a.RestoreAbort? || a.WriteEvents? || a.WriteManifest?
  }

  lemma NeutralFrame(e: Env, s: State, a: Step)
    requires Enabled(e, s, a) && Neutral(a)
    ensures var t := Next(e, s, a);
            && t.live == s.live && t.active == s.active && t.catalog == s.catalog
            && t.history.stored == s.history.stored && (t.restorer == s.restorer || t.restorer.Resting?)
  {
  }

  lemma NeutralEngine(e: Env, s: State, a: Step)
    requires Enabled(e, s, a) && Neutral(a) && EngineOrigin(e, s)
    ensures var t := Next(e, s, a);
            EngineOrigin(e, t) && forall slot :: Condemned(t.engine, slot) ==> Condemned(s.engine, slot)
  {
    var p := Next(e, s, a).engine;
    if a.WriteEvents? {
      assert p.Writing? && p.entries == [];
    } else if a.WriteManifest? {
      assert p.Written? && p.receipt.manifest.payloads == s.engine.entries;
    } else if a.Complete? || a.Fail? {
      assert p.Collecting? && p.verdict == s.engine.verdict && s.engine.completed <= p.completed;
    } else {
      assert p == s.engine || (!p.Writing? && !p.Written? && !p.Catalogued? && !p.Collecting?);
    }
  }

  lemma NeutralKeeps(e: Env, s: State, a: Step)
    requires RefInv(e, s) && Enabled(e, s, a) && Neutral(a)
    ensures RefInv(e, Next(e, s, a))
  {
    hide Enabled, Next, EngineOrigin;
    NeutralFrame(e, s, a);
    NeutralEngine(e, s, a);
    var t := Next(e, s, a);
    forall id | id in t.live ensures LinksPresent(t.active, t.live[id]) { assert LinksPresent(s.active, s.live[id]); }
  }

  /** The guards are exact: a step keeps the invariant if and only if it is orderly. */
  lemma StepKeepsRefsExactly(e: Env, s: State, a: Step)
    requires Inv(e, s) && RefInv(e, s) && Enabled(e, s, a)
    ensures RefInv(e, Next(e, s, a)) <==> Orderly(e, s, a)
  {
    hide Inv, RefInv, Enabled, Next, IngestGuard, MergeGuard, RemoveGuard;
    if Neutral(a) {
      NeutralKeeps(e, s, a);
    } else {
      match a {
        case PutPayload(_, _, _, _) => PutKeeps(e, s, a);
        case Ingest(batch) => IngestKeepsRefs(e, s, batch);
        case CopyNext => CopyKeepsRefs(e, s);
        case Catalog(replace) => CatalogKeepsRefs(e, s, replace);
        case Delete => DeleteKeepsRefs(e, s);
        case Lookup => LookupKeepsRefs(e, s);
        case Remove(slot) => RemoveKeepsRefs(e, s, slot);
        case RestoreRead(archive, offset, limit) => ReadKeeps(e, s, archive, offset, limit);
        case RestoreCopy => RestoreCopyKeeps(e, s);
        case RestoreMerge => MergeKeeps(e, s);
      }
    }
  }

  lemma {:induction false} RunKeepsRefs(e: Env, s: State, steps: seq<Step>)
    requires Inv(e, s) && RefInv(e, s) && CanRun(e, s, steps) && OrderlyRun(e, s, steps)
    ensures Inv(e, Reached(e, s, steps)) && RefInv(e, Reached(e, s, steps))
    decreases |steps|
  {
    if steps != [] {
      StepKeeps(e, s, steps[0]);
      StepKeepsRefsExactly(e, s, steps[0]);
      RunKeepsRefs(e, Next(e, s, steps[0]), steps[1..]);
    }
  }

  /** The reference can be read, and what is read has its checksum. */
  ghost predicate Opens(e: Env, active: map<Slot, Content>, ref: Ref)
  {
    Open(e, active, ref).Some? && Sum(Open(e, active, ref).value) == ref.sum
  }

  /** In every state of an orderly run, each payload of each live event opens in its
      active store and its bytes have the linked checksum. */
  lemma {:induction false} LiveReferencesResolve(e: Env, clock: int, steps: seq<Step>, id: Id, i: nat)
    requires CanRun(e, Start(clock), steps) && OrderlyRun(e, Start(clock), steps)
    requires var s := Reached(e, Start(clock), steps); id in s.live && i < |s.live[id].links|
    ensures var s := Reached(e, Start(clock), steps); Opens(e, s.active, s.live[id].links[i].ref)
  {
    hide Enabled, Next, CanRun, Reached, OrderlyRun;
    RunKeepsRefs(e, Start(clock), steps);
    var s := Reached(e, Start(clock), steps);
    assert LinksPresent(s.active, s.live[id]) && CanonicalLinks(e, s.live[id]);
  }
}
