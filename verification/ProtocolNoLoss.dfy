/** No event is ever lost: over every run of the protocol, with any call failing or
    crashing anywhere, each version of an event that was ever stored is live or held by a
    catalogued archive, and exactly which of its payloads have a verified copy there. */
module ProtocolNoLoss {
  import opened Common
  import opened Objects
  import opened Protocol

  // ---- Payload copies ----

  /** The archive holds a copy of the source object that matches its checksum and size. */
  ghost predicate CopyOk(vault: ObjectMap, entry: PayloadEntry)
  {
    ArchivedPayload(vault, entry).Some? && Verified(ArchivedPayload(vault, entry).value, entry.source)
  }

  /** And the copy can be written back to where it came from. */
  ghost predicate EntryOk(e: Env, vault: ObjectMap, entry: PayloadEntry)
  {
    CopyOk(vault, entry) && entry.source.store in e.sources && !entry.source.compression.Unsupported?
  }

  ghost predicate AllOk(e: Env, vault: ObjectMap, entries: seq<PayloadEntry>)
  {
    forall i :: 0 <= i < |entries| ==> EntryOk(e, vault, entries[i])
  }

  /** The entries are the first references of a batch to their objects. */
  ghost predicate AllFirst(entries: seq<PayloadEntry>, refs: seq<Ref>)
  {
    forall i :: 0 <= i < |entries| ==> FirstRef(refs, SlotOf(entries[i].source)) == Some(entries[i].source)
  }

  ghost predicate AllSeen(entries: seq<PayloadEntry>, refs: seq<Ref>)
  {
    forall j :: 0 <= j < |refs| ==> Seen(entries, SlotOf(refs[j]))
  }

  /** What the payload part of a bundle is worth: a verified copy of each object. */
  ghost predicate PayloadsHeld(e: Env, vault: ObjectMap, entries: seq<PayloadEntry>, refs: seq<Ref>)
  {
    AllOk(e, vault, entries) && AllFirst(entries, refs) && AllSeen(entries, refs)
  }

  /** The archive holds a copy that matches the checksum and size of this very reference. */
  ghost predicate Covered(vault: ObjectMap, entries: seq<PayloadEntry>, ref: Ref)
  {
    exists i :: 0 <= i < |entries| && SlotOf(entries[i].source) == SlotOf(ref)
                && ArchivedPayload(vault, entries[i]).Some? && Verified(ArchivedPayload(vault, entries[i]).value, ref)
  }

  ghost predicate LinksCovered(vault: ObjectMap, entries: seq<PayloadEntry>, r: Record)
  {
    forall i :: 0 <= i < |r.links| ==> Covered(vault, entries, r.links[i].ref)
  }

  /** The reference says the same about its object as the first reference of the batch to it. */
  predicate AgreesWithFirst(refs: seq<Ref>, ref: Ref)
  {
    var first := FirstRef(refs, SlotOf(ref));
    first.Some? && first.value.sum == ref.sum && first.value.size == ref.size
  }

  /** Write verifies an object against the first reference to it only, so a reference of
      the batch has a copy of its own if and only if it agrees with that one. */
  lemma OwnCopyExactly(e: Env, vault: ObjectMap, entries: seq<PayloadEntry>, refs: seq<Ref>, ref: Ref)
    requires PayloadsHeld(e, vault, entries, refs) && ref in refs
    ensures Covered(vault, entries, ref) <==> AgreesWithFirst(refs, ref)
  {
    var j :| 0 <= j < |refs| && refs[j] == ref;
    assert Seen(entries, SlotOf(refs[j]));
    var k :| 0 <= k < |entries| && SlotOf(entries[k].source) == SlotOf(ref);
    assert EntryOk(e, vault, entries[k]) && FirstRef(refs, SlotOf(ref)) == Some(entries[k].source);
    forall i | 0 <= i < |entries| && SlotOf(entries[i].source) == SlotOf(ref)
      ensures EntryOk(e, vault, entries[i]) && entries[i].source == entries[k].source {}
  }

  // ---- Archives that can be trusted ----

  /** The receipt's objects are all there: the manifest, the events it lists and a
      verified copy of every object they link. */
  ghost predicate Complete(e: Env, vault: ObjectMap, rc: Receipt, records: seq<Record>)
  {
    && rc.manifest.id == Sum(EventsDoc(records))
    && rc.manifest.eventIDs == Ids(records) && Distinct(Ids(records))
    && ReadManifest(vault, rc.manifestRef) == Some(rc.manifest)
    && ArchivedEvents(vault, rc.manifest) == Some(records)
    && PayloadsHeld(e, vault, rc.manifest.payloads, AllRefs(records))
  }

  ghost predicate Extends(vault: ObjectMap, vault': ObjectMap)
  {
    forall k :: k in vault ==> k in vault' && vault'[k] == vault[k]
  }

  lemma AllOkGrows(e: Env, vault: ObjectMap, vault': ObjectMap, entries: seq<PayloadEntry>)
    requires AllOk(e, vault, entries) && Extends(vault, vault')
    ensures AllOk(e, vault', entries)
  {
    forall i | 0 <= i < |entries| ensures EntryOk(e, vault', entries[i]) { assert EntryOk(e, vault, entries[i]); }
  }

  lemma CompleteGrows(e: Env, vault: ObjectMap, vault': ObjectMap, rc: Receipt, records: seq<Record>)
    requires Extends(vault, vault') && Complete(e, vault, rc, records)
    ensures Complete(e, vault', rc, records)
  {
    hide AllOk, AllFirst, AllSeen;
    AllOkGrows(e, vault, vault', rc.manifest.payloads);
  }

  // ---- The invariant ----

  /** The contents an archive identity stands for. */
  ghost function ContentsOf(a: Digest): seq<Record>
  {
    if a.Sum? && a.of.EventsDoc? then a.of.records else []
  }

  ghost predicate CatalogInv(e: Env, vault: ObjectMap, catalog: map<Digest, Receipt>)
  {
    forall a :: a in catalog ==> catalog[a].manifest.id == a && Complete(e, vault, catalog[a], ContentsOf(a))
  }

  /** Archives hold records that were stored. */
  ghost predicate OriginInv(catalog: map<Digest, Receipt>, stored: set<Record>)
  {
    forall a, r :: a in catalog && r in ContentsOf(a) ==> r in stored
  }

  ghost predicate MappingInv(catalog: map<Digest, Receipt>, mapping: map<Id, Digest>)
  {
    forall id :: id in mapping ==> mapping[id] in catalog
  }

  ghost predicate Recorded(catalog: map<Digest, Receipt>, a: Digest, r: Record)
  {
    a in catalog && r in ContentsOf(a)
  }

  /** The version is live or in some catalogued archive. */
  ghost predicate Safe(s: State, r: Record)
  {
    (r.id in s.live && s.live[r.id] == r) || exists a :: Recorded(s.catalog, a, r)
  }

  /** The event is live, or mapped to an archive with its last live version. */
  ghost predicate Found(s: State, id: Id)
    requires id in s.history.last
  {
    var r := s.history.last[id];
    r.id == id && ((id in s.live && s.live[id] == r) || (id in s.mapping && Recorded(s.catalog, s.mapping[id], r)))
  }

  ghost predicate LiveInv(s: State)
  {
    forall id :: id in s.live ==> s.live[id].id == id && s.live[id] in s.history.stored
                                  && id in s.history.last && s.history.last[id] == s.live[id]
  }

  ghost predicate KeptInv(s: State)
  {
    && (forall r :: r in s.history.stored ==> Safe(s, r))
    && (forall id :: id in s.history.last ==> Found(s, id))
  }

  ghost predicate AllLive(live: map<Id, Record>, rs: seq<Record>)
  {
    forall r :: r in rs ==> r.id in live && live[r.id] == r
  }

  ghost predicate HasJob(p: Phase)
  {
    p.Paged? || HasRecords(p)
  }

  ghost predicate HasRecords(p: Phase)
  {
    p.Loaded? || p.Writing? || p.Written? || p.Catalogued? || p.Recorded? || p.Staged?
  }

  /** Write's loop: every reference visited so far has a verified copy. */
  ghost predicate WritingInv(e: Env, vault: ObjectMap, p: Phase)
    requires p.Writing?
  {
    && p.next <= |AllRefs(p.records)|
    && EventsRef(e, p.records).key in vault
    && AllOk(e, vault, p.entries) && AllFirst(p.entries, AllRefs(p.records))
    && AllSeen(p.entries, AllRefs(p.records)[..p.next])
  }

  ghost predicate EngineInv(e: Env, s: State)
  {
    var p := s.engine;
    && (HasJob(p) ==> AllLive(s.live, p.job.eligible))
    && (HasRecords(p) ==> AllLive(s.live, p.records) && SameIds(Ids(p.records), Ids(p.job.eligible)))
    && (p.Writing? ==> WritingInv(e, s.vault, p))
    && (p.Written? || p.Catalogued? ==> Complete(e, s.vault, p.receipt, p.records))
    && (p.Catalogued? ==> p.receipt.manifest.id in s.catalog)
    && (p.Recorded? || p.Staged? ==> p.archive == Sum(EventsDoc(p.records)) && p.archive in s.catalog)
  }

  ghost predicate Inv(e: Env, s: State)
  {
    && ContentAddressed(s.vault)
    && CatalogInv(e, s.vault, s.catalog) && OriginInv(s.catalog, s.history.stored)
    && MappingInv(s.catalog, s.mapping)
    && LiveInv(s) && KeptInv(s)
    && EngineInv(e, s)
  }

  // ---- Archive objects ----

  /** Adding archive objects disturbs nothing that was proved about the archive. */
  lemma VaultGrows(e: Env, vault: ObjectMap, vault': ObjectMap, catalog: map<Digest, Receipt>)
    requires CatalogInv(e, vault, catalog) && Extends(vault, vault')
    ensures CatalogInv(e, vault', catalog)
  {
    hide Complete, Extends;
    forall a | a in catalog ensures Complete(e, vault', catalog[a], ContentsOf(a)) {
      CompleteGrows(e, vault, vault', catalog[a], ContentsOf(a));
    }
  }

  lemma ArchiveStep(e: Env, s: State, t: State)
    requires Inv(e, s) && Extends(s.vault, t.vault) && ContentAddressed(t.vault) && EngineInv(e, t)
    requires t == s.(vault := t.vault, engine := t.engine)
    ensures Inv(e, t)
  {
    hide CatalogInv, EngineInv, Extends, ContentAddressed;
    VaultGrows(e, s.vault, t.vault, s.catalog);
    QuietKept(s, t);
  }

  lemma WritingGrows(e: Env, vault: ObjectMap, vault': ObjectMap, p: Phase)
    requires p.Writing? && WritingInv(e, vault, p) && Extends(vault, vault')
    ensures WritingInv(e, vault', p)
  {
    AllOkGrows(e, vault, vault', p.entries);
  }

  lemma EngineGrows(e: Env, s: State, t: State)
    requires EngineInv(e, s) && Extends(s.vault, t.vault) && t == s.(vault := t.vault)
    ensures EngineInv(e, t)
  {
    hide Extends, Complete, WritingInv;
    var p := s.engine;
    if p.Writing? { WritingGrows(e, s.vault, t.vault, p); }
    if p.Written? || p.Catalogued? { CompleteGrows(e, s.vault, t.vault, p.receipt, p.records); }
  }

  lemma LeftoverKeeps(e: Env, s: State, c: Content, compression: Compression)
    requires Inv(e, s)
    ensures Inv(e, Next(e, s, Leftover(c, compression)))
  {
    hide CatalogInv, MappingInv, LiveInv, KeptInv, EngineInv;
    var t := Next(e, s, Leftover(c, compression));
    PutOnlyAdds(s.vault, e.vaultPrefix, c, compression);
    EngineGrows(e, s, t);
    ArchiveStep(e, s, t);
  }

  lemma WriteEventsKeeps(e: Env, s: State)
    requires Inv(e, s) && Enabled(e, s, WriteEvents)
    ensures Inv(e, Next(e, s, WriteEvents))
  {
    hide CatalogInv, KeptInv, LiveInv;
    PutOnlyAdds(s.vault, e.vaultPrefix, EventsDoc(s.engine.records), Gzip);
    ArchiveStep(e, s, Next(e, s, WriteEvents));
  }

  lemma SeenGrows(entries: seq<PayloadEntry>, entry: PayloadEntry, slot: Slot)
    requires Seen(entries, slot) || SlotOf(entry.source) == slot
    ensures Seen(entries + [entry], slot)
  {
    if Seen(entries, slot) {
      var i :| 0 <= i < |entries| && SlotOf(entries[i].source) == slot;
      assert (entries + [entry])[i] == entries[i];
    } else {
      assert (entries + [entry])[|entries|] == entry;
    }
  }

  lemma {:induction false} FirstRefAt(refs: seq<Ref>, k: nat)
    requires k < |refs| && forall j :: 0 <= j < k ==> SlotOf(refs[j]) != SlotOf(refs[k])
    ensures FirstRef(refs, SlotOf(refs[k])) == Some(refs[k])
  {
    if k > 0 { FirstRefAt(refs[1..], k - 1); }
  }

  /** One turn of Write's loop that copies an object keeps its invariant. */
  lemma CopyKeepsWriting(e: Env, vault: ObjectMap, p: Phase, c: Content)
    requires p.Writing? && WritingInv(e, vault, p) && ContentAddressed(vault) && p.next < |AllRefs(p.records)|
    requires var ref := AllRefs(p.records)[p.next];
             Verified(c, ref) && !Seen(p.entries, SlotOf(ref)) && ref.store in e.sources && !ref.compression.Unsupported?
    ensures var ref := AllRefs(p.records)[p.next];
            WritingInv(e, Put(vault, e.vaultPrefix, c, ref.compression),
                       p.(next := p.next + 1, entries := p.entries + [EntryFor(e, c, ref)]))
  {
    hide AllRefs;
    var refs := AllRefs(p.records);
    var ref := refs[p.next];
    var entry := EntryFor(e, c, ref);
    PutOnlyAdds(vault, e.vaultPrefix, c, ref.compression);
    AllOkGrows(e, vault, Put(vault, e.vaultPrefix, c, ref.compression), p.entries);
    forall j | 0 <= j < p.next ensures SlotOf(refs[j]) != SlotOf(ref) { assert refs[..p.next][j] == refs[j]; }
    FirstRefAt(refs, p.next);
    SeenNext(p.entries, entry, refs, p.next);
  }

  lemma SeenNext(entries: seq<PayloadEntry>, entry: PayloadEntry, refs: seq<Ref>, k: nat)
    requires k < |refs| && AllSeen(entries, refs[..k]) && SlotOf(entry.source) == SlotOf(refs[k])
    ensures AllSeen(entries + [entry], refs[..k + 1])
  {
    var now := refs[..k + 1];
    forall j | 0 <= j < |now| ensures Seen(entries + [entry], SlotOf(now[j])) {
      assert j < k ==> refs[..k][j] == refs[j];
      SeenGrows(entries, entry, SlotOf(refs[j]));
    }
  }

  lemma SeenAlready(entries: seq<PayloadEntry>, refs: seq<Ref>, k: nat)
    requires k < |refs| && AllSeen(entries, refs[..k]) && Seen(entries, SlotOf(refs[k]))
    ensures AllSeen(entries, refs[..k + 1])
  {
    var now := refs[..k + 1];
    forall j | 0 <= j < |now| ensures Seen(entries, SlotOf(now[j])) { assert j < k ==> refs[..k][j] == refs[j]; }
  }

  lemma CopyStep(e: Env, s: State)
    requires ContentAddressed(s.vault) && s.engine.Writing? && WritingInv(e, s.vault, s.engine) && Enabled(e, s, CopyNext)
    ensures var t := CopyOne(e, s);
            && t.engine.Writing? && WritingInv(e, t.vault, t.engine)
            && Extends(s.vault, t.vault) && ContentAddressed(t.vault)
  {
    hide AllRefs, EntryFor, Put, AllOk, AllFirst, AllSeen;
    var p := s.engine;
    var ref := AllRefs(p.records)[p.next];
    if Seen(p.entries, SlotOf(ref)) {
      SeenAlready(p.entries, AllRefs(p.records), p.next);
    } else {
      var c := Open(e, s.active, ref).value;
      PutOnlyAdds(s.vault, e.vaultPrefix, c, ref.compression);
      CopyKeepsWriting(e, s.vault, p, c);
    }
  }

  lemma CopyFrame(e: Env, s: State)
    requires Enabled(e, s, CopyNext)
    ensures var t := CopyOne(e, s);
            && t == s.(vault := t.vault, engine := t.engine)
            && t.engine.Writing? && t.engine.job == s.engine.job && t.engine.records == s.engine.records
  {
  }

  lemma CopyKeeps(e: Env, s: State)
    requires Inv(e, s) && Enabled(e, s, CopyNext)
    ensures Inv(e, Next(e, s, CopyNext))
  {
    hide WritingInv, CatalogInv, MappingInv, LiveInv, KeptInv, CopyOne, Extends, ContentAddressed;
    CopyStep(e, s);
    CopyFrame(e, s);
    ArchiveStep(e, s, CopyOne(e, s));
  }

  lemma ManifestReadsBack(e: Env, vault: ObjectMap, m: Manifest)
    requires ContentAddressed(vault)
    ensures var vault' := Put(vault, e.vaultPrefix, ManifestDoc(m), Plain);
            ReadManifest(vault', ReceiptFor(e, m).manifestRef) == Some(m) && Extends(vault, vault') && ContentAddressed(vault')
  {
  }

  lemma EventsReadBack(e: Env, vault: ObjectMap, m: Manifest, records: seq<Record>)
    requires ContentAddressed(vault) && m.events == EventsRef(e, records) && m.events.key in vault && |m.eventIDs| == |records|
    ensures ArchivedEvents(vault, m) == Some(records)
  {
  }

  /** When Write has visited every reference, the bundle it commits is complete. */
  lemma BundleComplete(e: Env, vault: ObjectMap, p: Phase, createdAt: int)
    requires ContentAddressed(vault) && p.Writing? && WritingInv(e, vault, p)
    requires p.next == |AllRefs(p.records)| && Distinct(Ids(p.records))
    ensures var m := ManifestFor(e, p.records, createdAt, p.entries);
            Complete(e, Put(vault, e.vaultPrefix, ManifestDoc(m), Plain), ReceiptFor(e, m), p.records)
  {
    hide AllOk, AllFirst, AllSeen, Put, ReadManifest, ArchivedEvents;
    var m := ManifestFor(e, p.records, createdAt, p.entries);
    var vault' := Put(vault, e.vaultPrefix, ManifestDoc(m), Plain);
    ManifestReadsBack(e, vault, m);
    WritingGrows(e, vault, vault', p);
    EventsReadBack(e, vault', m, p.records);
    assert AllRefs(p.records)[..p.next] == AllRefs(p.records);
  }

  lemma WriteManifestKeeps(e: Env, s: State, createdAt: int)
    requires Inv(e, s) && Enabled(e, s, WriteManifest(createdAt))
    ensures Inv(e, Next(e, s, WriteManifest(createdAt)))
  {
    hide CatalogInv, KeptInv, LiveInv, Complete, ReadManifest;
    BundleComplete(e, s.vault, s.engine, createdAt);
    ManifestReadsBack(e, s.vault, ManifestFor(e, s.engine.records, createdAt, s.engine.entries));
    ArchiveStep(e, s, Next(e, s, WriteManifest(createdAt)));
  }

  // ---- The catalog ----

  lemma CatalogGrows(s: State, t: State)
    requires KeptInv(s)
    requires t == s.(catalog := t.catalog, mapping := t.mapping, engine := t.engine)
    requires forall a :: a in s.catalog ==> a in t.catalog
    requires forall id :: id in s.mapping ==> id in t.mapping
    requires forall id :: id in s.mapping && t.mapping[id] != s.mapping[id] ==> id in s.live
    requires LiveInv(s)
    ensures KeptInv(t)
  {
    forall a, r | Recorded(s.catalog, a, r) ensures Recorded(t.catalog, a, r) {}
    forall r | r in t.history.stored ensures Safe(t, r) {
      assert Safe(s, r);
    }
    forall id | id in t.history.last ensures Found(t, id) {
      assert Found(s, id);
    }
  }

  lemma CatalogStep(e: Env, s: State, replace: bool)
    requires CatalogInv(e, s.vault, s.catalog) && EngineInv(e, s) && Enabled(e, s, Catalog(replace))
    ensures var t := Next(e, s, Catalog(replace)); CatalogInv(e, t.vault, t.catalog) && EngineInv(e, t)
  {
    hide Complete;
    if s.engine.Written? { CompleteId(e, s.vault, s.engine.receipt, s.engine.records); }
  }

  lemma CompleteId(e: Env, vault: ObjectMap, rc: Receipt, records: seq<Record>)
    requires Complete(e, vault, rc, records)
    ensures rc.manifest.id == Sum(EventsDoc(records)) && ContentsOf(rc.manifest.id) == records && rc.manifest.eventIDs == Ids(records)
  {
  }

  /** What is catalogued was live when its page was loaded, and so was stored. */
  lemma CatalogOrigin(e: Env, s: State, replace: bool)
    requires OriginInv(s.catalog, s.history.stored) && LiveInv(s) && EngineInv(e, s) && Enabled(e, s, Catalog(replace))
    ensures OriginInv(Next(e, s, Catalog(replace)).catalog, s.history.stored)
  {
    hide Complete;
    CompleteId(e, s.vault, s.engine.receipt, s.engine.records);
    forall r | r in ContentsOf(s.engine.receipt.manifest.id) ensures r in s.history.stored { assert r in s.engine.records; }
  }

  lemma CatalogKeeps(e: Env, s: State, replace: bool)
    requires Inv(e, s) && Enabled(e, s, Catalog(replace))
    ensures Inv(e, Next(e, s, Catalog(replace)))
  {
    hide KeptInv, CatalogInv, EngineInv, OriginInv;
    CatalogStep(e, s, replace);
    CatalogOrigin(e, s, replace);
    CatalogGrows(s, Next(e, s, Catalog(replace)));
  }

  lemma IdsLive(live: map<Id, Record>, records: seq<Record>, id: Id)
    requires AllLive(live, records) && id in Ids(records)
    ensures id in live && live[id] in records
  {
  }

  lemma MapKeepsMapping(catalog: map<Digest, Receipt>, mapping: map<Id, Digest>, ids: seq<Id>, a: Digest)
    requires MappingInv(catalog, mapping) && a in catalog
    ensures MappingInv(catalog, mapping + (map id | id in ids :: a))
  {
  }

  lemma MapKeepsKept(s: State, t: State, ids: seq<Id>, a: Digest)
    requires KeptInv(s) && LiveInv(s) && forall id :: id in ids ==> id in s.live
    requires t == s.(mapping := s.mapping + (map id | id in ids :: a), engine := t.engine)
    ensures KeptInv(t)
  {
    CatalogGrows(s, t);
  }

  lemma MapKeeps(e: Env, s: State)
    requires Inv(e, s) && Enabled(e, s, Map)
    ensures Inv(e, Next(e, s, Map))
  {
    hide CatalogInv, KeptInv, OriginInv, PayloadsHeld;
    var p := s.engine;
    var ids := p.receipt.manifest.eventIDs;
    forall id | id in ids ensures id in s.live {
      IdsLive(s.live, p.records, id);
    }
    MapKeepsMapping(s.catalog, s.mapping, ids, p.receipt.manifest.id);
    MapKeepsKept(s, Next(e, s, Map), ids, p.receipt.manifest.id);
  }

  // ---- Deleting ----

  lemma {:induction false} CountBound(ids: seq<Id>, rows: set<Id>)
    requires forall id :: id in rows ==> id in ids
    ensures |rows| <= |ids|
    ensures |rows| == |ids| ==> forall id :: id in ids ==> id in rows
  {
    if ids != [] {
      var rest := ids[1..];
      var others := rows - {ids[0]};
      forall id | id in others ensures id in rest {
        var i :| 0 <= i < |ids| && ids[i] == id;
        assert rest[i - 1] == id;
      }
      CountBound(rest, others);
      if ids[0] !in rows { assert others == rows; }
      if |rows| == |ids| {
        forall id | id in ids ensures id in rows {
          if id != ids[0] { assert id in rest; }
        }
      }
    }
  }

  /** The delete-time count: when it equals the batch length, every event of the batch
      is mapped to the archive named in the request. */
  lemma CoverageMeansMapped(mapping: map<Id, Digest>, a: Digest, ids: seq<Id>)
    requires Coverage(mapping, a, ids) == |ids|
    ensures forall id :: id in ids ==> id in mapping && mapping[id] == a
  {
    CountBound(ids, CoveringRows(mapping, a, ids));
  }

  lemma {:induction false} CountAll(ids: seq<Id>, rows: set<Id>)
    requires Distinct(ids) && forall id :: id in rows <==> id in ids
    ensures |rows| == |ids|
  {
    if ids != [] {
      var n := |ids| - 1;
      var rest := rows - {ids[n]};
      forall id ensures id in rest <==> id in ids[..n] {
        assert id in ids <==> id in ids[..n] || id == ids[n];
      }
      CountAll(ids[..n], rest);
    } else {
      assert rows == {};
    }
  }

  /** And only then, for a batch without repetitions: the count is exact. */
  lemma MappedMeansCoverage(mapping: map<Id, Digest>, a: Digest, ids: seq<Id>)
    requires Distinct(ids) && forall id :: id in ids ==> id in mapping && mapping[id] == a
    ensures Coverage(mapping, a, ids) == |ids|
  {
    CountAll(ids, CoveringRows(mapping, a, ids));
  }

  /** After RecordArchive the coverage check of the page succeeds. */
  lemma MapCovers(e: Env, s: State)
    requires EngineInv(e, s) && s.engine.Catalogued?
    ensures var t := Next(e, s, Map);
            Coverage(t.mapping, t.engine.archive, Ids(t.engine.job.eligible)) == |t.engine.job.eligible|
  {
    var t := Next(e, s, Map);
    var ids := Ids(s.engine.job.eligible);
    forall id | id in ids ensures id in t.mapping && t.mapping[id] == t.engine.archive {
      assert id in Ids(s.engine.records);
    }
    MappedMeansCoverage(t.mapping, t.engine.archive, ids);
  }

  /** An event about to be deleted is held by the archive of its page. */
  lemma DeletedIsHeld(e: Env, s: State, id: Id)
    requires EngineInv(e, s) && Enabled(e, s, Delete) && id in IdSet(s.engine.job.eligible)
    ensures id in s.live && id in s.mapping && Recorded(s.catalog, s.mapping[id], s.live[id])
  {
    var p := s.engine;
    var ids := Ids(p.job.eligible);
    CoverageMeansMapped(s.mapping, p.archive, ids);
    var i :| 0 <= i < |p.job.eligible| && p.job.eligible[i].id == id;
    assert ids[i] == id;
    assert id in ids;
    IdsLive(s.live, p.records, id);
  }

  lemma DeleteKeepsKept(e: Env, s: State, t: State)
    requires EngineInv(e, s) && KeptInv(s) && Enabled(e, s, Delete)
    requires t.live == s.live - IdSet(s.engine.job.eligible) && t.catalog == s.catalog && t.mapping == s.mapping && t.vault == s.vault
    requires t.history.stored == s.history.stored && t.history.last == s.history.last
    ensures KeptInv(t)
  {
    forall r | r in t.history.stored ensures Safe(t, r) {
      assert Safe(s, r);
      if r.id in s.live && s.live[r.id] == r && r.id !in t.live {
        DeletedIsHeld(e, s, r.id);
      }
    }
    forall id | id in t.history.last ensures Found(t, id) {
      assert Found(s, id);
      if id in s.live && id !in t.live {
        DeletedIsHeld(e, s, id);
      }
    }
  }

  lemma DeleteKeeps(e: Env, s: State)
    requires Inv(e, s) && Enabled(e, s, Delete)
    ensures Inv(e, Next(e, s, Delete))
  {
    hide CatalogInv, MappingInv, KeptInv;
    DeleteKeepsKept(e, s, Next(e, s, Delete));
  }

  // ---- Inserting ----

  lemma {:induction false} InsertKeepsLive(live: map<Id, Record>, rs: seq<Record>)
    ensures forall id :: id in live ==> id in Insert(live, rs) && Insert(live, rs)[id] == live[id]
    ensures (forall id :: id in live ==> live[id].id == id) ==> forall id :: id in Insert(live, rs) ==> Insert(live, rs)[id].id == id
    decreases |rs|
  {
    if rs != [] {
      InsertKeepsLive(if rs[0].id in live then live else live[rs[0].id := rs[0]], rs[1..]);
    }
  }

  lemma InsertKeepsKept(s: State, rs: seq<Record>)
    requires LiveInv(s) && KeptInv(s)
    ensures LiveInv(InsertInto(s, rs)) && KeptInv(InsertInto(s, rs))
  {
    InsertKeepsLive(s.live, rs);
    var t := InsertInto(s, rs);
    forall r | r in t.history.stored ensures Safe(t, r) {
      if r in s.history.stored { assert Safe(s, r); }
    }
    forall id | id in t.history.last ensures Found(t, id) {
      if !(id in t.live && id !in s.live) { assert Found(s, id); }
    }
  }

  lemma InsertKeepsEngine(e: Env, s: State, rs: seq<Record>)
    requires EngineInv(e, s)
    ensures EngineInv(e, InsertInto(s, rs))
  {
    InsertKeepsLive(s.live, rs);
    assert HasJob(s.engine) ==> AllLive(Insert(s.live, rs), s.engine.job.eligible);
    assert HasRecords(s.engine) ==> AllLive(Insert(s.live, rs), s.engine.records);
  }

  lemma InsertKeeps(e: Env, s: State, rs: seq<Record>)
    requires Inv(e, s)
    ensures Inv(e, InsertInto(s, rs))
  {
    InsertKeepsKept(s, rs);
    InsertKeepsEngine(e, s, rs);
  }

  // ---- Every run ----

  /** Steps that leave events, catalog, mapping, archive and history of insertions alone. */
  ghost predicate Quiet(a: Step)
  {
    a.Tick? || a.PutPayload? || a.Scan? || a.Load? || a.Stage? || a.Abort? || a.List? || a.Lookup?
    || a.Remove? || a.Complete? || a.Fail? || a.RestoreRead? || a.RestoreCopy? || a.RestoreAbort?
  }

  lemma QuietFrame(e: Env, s: State, a: Step)
    requires Enabled(e, s, a) && Quiet(a)
    ensures var t := Next(e, s, a);
            && t.live == s.live && t.catalog == s.catalog && t.mapping == s.mapping && t.vault == s.vault
            && t.history.stored == s.history.stored && t.history.last == s.history.last
  {
  }

  lemma QuietEngine(e: Env, s: State, a: Step)
    requires EngineInv(e, s) && Enabled(e, s, a) && Quiet(a)
    ensures EngineInv(e, Next(e, s, a))
  {
    var t := Next(e, s, a);
    QuietFrame(e, s, a);
    if a.Scan? {
      assert t.engine.Paged? && AllLive(t.live, t.engine.job.eligible);
    } else if a.Load? {
      assert t.engine.Loaded? && AllLive(t.live, t.engine.records);
    } else if a.Stage? {
      assert t.engine == Staged(s.engine.job, s.engine.records, s.engine.archive);
    } else {
      assert t.engine == s.engine || !HasJob(t.engine);
    }
  }

  lemma QuietKept(s: State, t: State)
    requires KeptInv(s) && LiveInv(s)
    requires t.live == s.live && t.catalog == s.catalog && t.mapping == s.mapping
    requires t.history.stored == s.history.stored && t.history.last == s.history.last
    ensures KeptInv(t) && LiveInv(t)
  {
  }

  lemma QuietKeeps(e: Env, s: State, a: Step)
    requires Inv(e, s) && Enabled(e, s, a) && Quiet(a)
    ensures Inv(e, Next(e, s, a))
  {
    hide Next, Enabled, KeptInv, LiveInv, EngineInv, CatalogInv, MappingInv;
    QuietFrame(e, s, a);
    QuietEngine(e, s, a);
    QuietKept(s, Next(e, s, a));
  }

  lemma ArchiveStepKeeps(e: Env, s: State, a: Step)
    requires Inv(e, s) && Enabled(e, s, a) && (a.Leftover? || a.WriteEvents? || a.CopyNext? || a.WriteManifest?)
    ensures Inv(e, Next(e, s, a))
  {
    match a
    case Leftover(c, compression) => LeftoverKeeps(e, s, c, compression);
    case WriteEvents => WriteEventsKeeps(e, s);
    case CopyNext => CopyKeeps(e, s);
    case WriteManifest(createdAt) => WriteManifestKeeps(e, s, createdAt);
  }

  lemma RestorerIsFree(e: Env, s: State, r: Restorer)
    requires Inv(e, s)
    ensures Inv(e, s.(restorer := r))
  {
  }

  lemma EventStepKeeps(e: Env, s: State, a: Step)
    requires Inv(e, s) && Enabled(e, s, a) && (a.Ingest? || a.RestoreMerge?)
    ensures Inv(e, Next(e, s, a))
  {
    hide Inv, InsertInto;
    if a.Ingest? {
      InsertKeeps(e, s, a.batch);
    } else {
      InsertKeeps(e, s, s.restorer.chunk);
      RestorerIsFree(e, InsertInto(s, s.restorer.chunk), Resting);
    }
  }

  lemma StepKeeps(e: Env, s: State, a: Step)
    requires Inv(e, s) && Enabled(e, s, a)
    ensures Inv(e, Next(e, s, a))
  {
    if Quiet(a) {
      QuietKeeps(e, s, a);
    } else if a.Leftover? || a.WriteEvents? || a.CopyNext? || a.WriteManifest? {
      ArchiveStepKeeps(e, s, a);
    } else if a.Ingest? || a.RestoreMerge? {
      EventStepKeeps(e, s, a);
    } else {
      match a {
        case Catalog(replace) => CatalogKeeps(e, s, replace);
        case Map => MapKeeps(e, s);
        case Delete => DeleteKeeps(e, s);
      }
    }
  }

  lemma {:induction false} RunKeeps(e: Env, s: State, steps: seq<Step>)
    requires Inv(e, s) && CanRun(e, s, steps)
    ensures Inv(e, Reached(e, s, steps))
    decreases |steps|
  {
    if steps != [] {
      StepKeeps(e, s, steps[0]);
      RunKeeps(e, Next(e, s, steps[0]), steps[1..]);
    }
  }

  // ---- Main results ----

  /** The archive gives the record back, and a link of it has a verified copy of its own
      exactly when it agrees with the first reference of the archive to the same object. */
  ghost predicate Holds(s: State, a: Digest, r: Record)
  {
    && a in s.catalog && r in ContentsOf(a)
    && ArchivedEvents(s.vault, s.catalog[a].manifest) == Some(ContentsOf(a))
    && forall i :: 0 <= i < |r.links| ==>
         (Covered(s.vault, s.catalog[a].manifest.payloads, r.links[i].ref) <==> AgreesWithFirst(AllRefs(ContentsOf(a)), r.links[i].ref))
  }

  lemma RecordedIsHeld(e: Env, s: State, a: Digest, r: Record)
    requires CatalogInv(e, s.vault, s.catalog) && Recorded(s.catalog, a, r)
    ensures Holds(s, a, r)
  {
    hide PayloadsHeld, AgreesWithFirst, Covered;
    assert Complete(e, s.vault, s.catalog[a], ContentsOf(a));
    forall i | 0 <= i < |r.links|
      ensures Covered(s.vault, s.catalog[a].manifest.payloads, r.links[i].ref) <==> AgreesWithFirst(AllRefs(ContentsOf(a)), r.links[i].ref)
    {
      AllRefsComplete(ContentsOf(a), r, r.links[i]);
      OwnCopyExactly(e, s.vault, s.catalog[a].manifest.payloads, AllRefs(ContentsOf(a)), r.links[i].ref);
    }
  }

  /** No loss: after any sequence of ingestion, retention runs, collections and restores,
      interrupted anywhere, every record version ever stored is live or held by a
      catalogued archive; and every event ever stored is live, or the catalog maps it to
      an archive that holds its last live version. */
  lemma {:induction false} NothingIsLost(e: Env, clock: int, steps: seq<Step>)
    requires CanRun(e, Start(clock), steps)
    ensures var s := Reached(e, Start(clock), steps);
            && (forall r :: r in s.history.stored ==> (r.id in s.live && s.live[r.id] == r) || exists a :: Holds(s, a, r))
            && (forall id :: id in s.history.last ==>
                  (id in s.live && s.live[id] == s.history.last[id]) || (id in s.mapping && Holds(s, s.mapping[id], s.history.last[id])))
            && (forall id :: id in s.live ==> s.live[id] in s.history.stored)
  {
    hide CanRun, Reached, Holds, CatalogInv;
    RunKeeps(e, Start(clock), steps);
    var s := Reached(e, Start(clock), steps);
    forall a, r | Recorded(s.catalog, a, r) ensures Holds(s, a, r) { RecordedIsHeld(e, s, a, r); }
    forall r | r in s.history.stored ensures (r.id in s.live && s.live[r.id] == r) || exists a :: Holds(s, a, r) { assert Safe(s, r); }
    forall id | id in s.history.last
      ensures (id in s.live && s.live[id] == s.history.last[id]) || (id in s.mapping && Holds(s, s.mapping[id], s.history.last[id]))
    {
      assert Found(s, id);
    }
  }

  /** References to one object never disagree about its checksum or size. */
  ghost predicate StoredAgree(stored: set<Record>)
  {
    forall r, q, i, j :: r in stored && q in stored && 0 <= i < |r.links| && 0 <= j < |q.links| && SlotOf(r.links[i].ref) == SlotOf(q.links[j].ref) ==>
      r.links[i].ref.sum == q.links[j].ref.sum && r.links[i].ref.size == q.links[j].ref.size
  }

  lemma {:induction false} FirstRefMember(refs: seq<Ref>, slot: Slot)
    ensures FirstRef(refs, slot).Some? ==> FirstRef(refs, slot).value in refs && SlotOf(FirstRef(refs, slot).value) == slot
    ensures FirstRef(refs, slot).None? ==> forall i :: 0 <= i < |refs| ==> SlotOf(refs[i]) != slot
  {
    if refs != [] && SlotOf(refs[0]) != slot { FirstRefMember(refs[1..], slot); }
  }

  /** Then every link of every archived record has a verified copy of its own. */
  lemma {:induction false} EveryLinkIsCovered(e: Env, clock: int, steps: seq<Step>, a: Digest, r: Record)
    requires CanRun(e, Start(clock), steps) && StoredAgree(Reached(e, Start(clock), steps).history.stored)
    requires Recorded(Reached(e, Start(clock), steps).catalog, a, r)
    ensures var s := Reached(e, Start(clock), steps); LinksCovered(s.vault, s.catalog[a].manifest.payloads, r)
  {
    hide CanRun, Reached, CatalogInv, Covered;
    RunKeeps(e, Start(clock), steps);
    var s := Reached(e, Start(clock), steps);
    RecordedIsHeld(e, s, a, r);
    forall i | 0 <= i < |r.links| ensures AgreesWithFirst(AllRefs(ContentsOf(a)), r.links[i].ref) {
      AgreeingRefs(s.history.stored, ContentsOf(a), r, i);
    }
  }

  lemma AgreeingRefs(stored: set<Record>, records: seq<Record>, r: Record, i: nat)
    requires StoredAgree(stored) && (forall q :: q in records ==> q in stored) && r in records && i < |r.links|
    ensures AgreesWithFirst(AllRefs(records), r.links[i].ref)
  {
    var ref, refs := r.links[i].ref, AllRefs(records);
    AllRefsComplete(records, r, r.links[i]);
    var k :| 0 <= k < |refs| && refs[k] == ref;
    FirstRefMember(refs, SlotOf(ref));
    var first := FirstRef(refs, SlotOf(ref)).value;
    var j :| 0 <= j < |refs| && refs[j] == first;
    AllRefsSound(records, j);
    var q, m :| q in records && 0 <= m < |q.links| && q.links[m].ref == refs[j];
  }

  /** References as Put returns them: keyed by the checksum, with the size of the content. */
  ghost predicate FromPut(ref: Ref)
  {
    ref.key.Addressed? && ref.key.sum == ref.sum && ref.sum.Sum? && ref.size == SizeOf(ref.sum.of)
  }

  /** Such references always agree. */
  lemma PutReferencesAgree(stored: set<Record>)
    requires forall r, i :: r in stored && 0 <= i < |r.links| ==> FromPut(r.links[i].ref)
    ensures StoredAgree(stored)
  {
    forall r, q, i, j | r in stored && q in stored && 0 <= i < |r.links| && 0 <= j < |q.links| && SlotOf(r.links[i].ref) == SlotOf(q.links[j].ref)
      ensures r.links[i].ref.sum == q.links[j].ref.sum && r.links[i].ref.size == q.links[j].ref.size
    {
      assert FromPut(r.links[i].ref) && FromPut(q.links[j].ref);
    }
  }
}
