/** Chunked restore.  Reading an archive in chunks of any size, in any order and any
    number of times, gives back exactly the archived events and never changes a live
    one; and from every reachable state every archived event can be brought back. */
module Restore {
  import opened Common
  import opened Objects
  import opened Protocol
  import opened ProtocolNoLoss
  import ProtocolGc
  import RetentionEngine

  // ---- Reading a chunk ----

  const MAX_LIMIT: int := 10_000

  predicate ValidRead(offset: int, limit: int)
  {
    offset >= 0 && 1 <= limit <= MAX_LIMIT
  }

  /** ReadEvents: skip to the offset, keep up to limit events, count and hash all lines.
      fault is any I/O or cancellation error. */
  method ReadEvents(vault: ObjectMap, m: Manifest, offset: int, limit: int, fault: bool) returns (r: Result<(seq<Record>, bool)>)
    ensures r.Ok? <==> ValidRead(offset, limit) && !fault && ArchivedEvents(vault, m).Some?
    ensures r.Ok? ==> var all := ArchivedEvents(vault, m).value;
                      r.value.0 == Chunk(all, offset, limit) && r.value.1 == (offset + |r.value.0| >= |all|)
  {
    if offset < 0 || limit < 1 || limit > MAX_LIMIT { return Err("invalid bounded read"); }
    if fault || m.events.key !in vault { return Err("open failed"); }
    var doc := Unpack(vault[m.events.key], m.events.compression);
    if doc.None? || !doc.value.EventsDoc? { return Err("not an events object"); }
    hide Chunk;
    var lines := doc.value.records;
    NoChunk(lines, offset, limit);
    var result: seq<Record> := [];
    var index := 0;
    while index < |lines|
      invariant 0 <= index <= |lines|
      invariant result == Chunk(lines[..index], offset, limit)
    {
      ChunkMore(lines, index, offset, limit);
      if index >= offset && |result| < limit { result := result + [lines[index]]; }
      index := index + 1;
    }
    assert lines[..index] == lines;
    if index != |m.eventIDs| { return Err("event count verification failed"); }
    if Sum(doc.value) != m.events.sum { return Err("event checksum verification failed"); }
    return Ok((result, offset + |result| >= |m.eventIDs|));
  }

  lemma NoChunk(lines: seq<Record>, offset: nat, limit: nat)
    ensures Chunk(lines[..0], offset, limit) == []
  {
  }

  /** One more line enters the chunk if it is past the offset and the chunk is not full. */
  lemma ChunkMore(lines: seq<Record>, k: nat, offset: nat, limit: nat)
    requires k < |lines| && limit >= 1
    ensures var before := Chunk(lines[..k], offset, limit);
            Chunk(lines[..k + 1], offset, limit) == if k >= offset && |before| < limit then before + [lines[k]] else before
  {
  }

  // ---- Chunks ----

  function Concat(chunks: seq<seq<Record>>): seq<Record>
  {
    if chunks == [] then [] else chunks[0] + Concat(chunks[1..])
  }

  /** The chunks of a caller that follows Next until Complete, choosing each limit as it likes. */
  function Follow(records: seq<Record>, offset: nat, limits: nat -> nat): seq<seq<Record>>
    requires forall i :: 1 <= limits(i)
    decreases |records| - offset
  {
    var chunk := Chunk(records, offset, limits(offset));
    if offset + |chunk| >= |records| then [chunk] else [chunk] + Follow(records, offset + |chunk|, limits)
  }

  /** A chunk is a stretch of the archive, and not an empty one before the end. */
  lemma ChunkIsStretch(records: seq<Record>, offset: nat, limit: nat)
    requires offset <= |records| && limit >= 1
    ensures var n := |Chunk(records, offset, limit)|;
            && offset + n <= |records| && (offset < |records| ==> n > 0)
            && Chunk(records, offset, limit) + records[offset + n..] == records[offset..]
  {
  }

  /** Following Next partitions the archived sequence. */
  lemma {:induction false} ChunksPartition(records: seq<Record>, offset: nat, limits: nat -> nat)
    requires (forall i :: 1 <= limits(i)) && offset <= |records|
    ensures Concat(Follow(records, offset, limits)) == records[offset..]
    ensures offset < |records| ==> forall i :: 0 <= i < |Follow(records, offset, limits)| ==> Follow(records, offset, limits)[i] != []
    decreases |records| - offset
  {
    hide Chunk;
    ChunkIsStretch(records, offset, limits(offset));
    var chunk := Chunk(records, offset, limits(offset));
    if offset + |chunk| >= |records| {
      assert [chunk][1..] == [] && records[offset + |chunk|..] == [];
    } else {
      ChunksPartition(records, offset + |chunk|, limits);
      var rest := Follow(records, offset + |chunk|, limits);
      assert ([chunk] + rest)[1..] == rest;
    }
  }

  /** Merging chunks one after another. */
  function MergeAll(live: map<Id, Record>, chunks: seq<seq<Record>>): map<Id, Record>
    decreases |chunks|
  {
    if chunks == [] then live else MergeAll(Insert(live, chunks[0]), chunks[1..])
  }

  ghost predicate FromArchive(records: seq<Record>, chunk: seq<Record>)
  {
    forall r :: r in chunk ==> r in records
  }

  ghost predicate Covers(records: seq<Record>, chunks: seq<seq<Record>>)
  {
    forall r :: r in records ==> InSome(chunks, r)
  }

  ghost predicate InSome(chunks: seq<seq<Record>>, r: Record)
  {
    exists i :: 0 <= i < |chunks| && r in chunks[i]
  }

  lemma IdDecides(records: seq<Record>, r: Record, q: Record)
    requires Distinct(Ids(records)) && r in records && q in records && r.id == q.id
    ensures r == q
  {
    var i :| 0 <= i < |records| && records[i] == r;
    var j :| 0 <= j < |records| && records[j] == q;
    assert Ids(records)[i] == r.id && Ids(records)[j] == q.id;
  }

  /** What the merge of archived records does to one event. */
  lemma {:induction false} InsertedFrom(live: map<Id, Record>, records: seq<Record>, chunk: seq<Record>, id: Id)
    requires Distinct(Ids(records)) && FromArchive(records, chunk)
    ensures id in live ==> id in Insert(live, chunk) && Insert(live, chunk)[id] == live[id]
    ensures id !in live ==> (id in Insert(live, chunk) <==> exists r :: r in chunk && r.id == id)
    ensures id !in live && id in Insert(live, chunk) ==> Insert(live, chunk)[id] in chunk && Insert(live, chunk)[id].id == id
    decreases |chunk|
  {
    if chunk != [] {
      var first := chunk[0];
      var next := if first.id in live then live else live[first.id := first];
      assert forall r :: r in chunk[1..] ==> r in chunk;
      InsertedFrom(next, records, chunk[1..], id);
      assert forall r :: r in chunk ==> r == first || r in chunk[1..];
    }
  }

  lemma {:induction false} MergedFrom(live: map<Id, Record>, records: seq<Record>, chunks: seq<seq<Record>>, id: Id)
    requires Distinct(Ids(records)) && forall i :: 0 <= i < |chunks| ==> FromArchive(records, chunks[i])
    ensures id in live ==> id in MergeAll(live, chunks) && MergeAll(live, chunks)[id] == live[id]
    ensures id !in live ==> (id in MergeAll(live, chunks) <==> exists r: Record :: r.id == id && InSome(chunks, r))
    ensures id !in live && id in MergeAll(live, chunks) ==> MergeAll(live, chunks)[id] in records && MergeAll(live, chunks)[id].id == id
    decreases |chunks|
  {
    if chunks != [] {
      var rest := chunks[1..];
      var next := Insert(live, chunks[0]);
      InsertedFrom(live, records, chunks[0], id);
      MergedFrom(next, records, rest, id);
      forall r ensures InSome(chunks, r) <==> r in chunks[0] || InSome(rest, r) {
        if InSome(rest, r) {
          var i :| 0 <= i < |rest| && r in rest[i];
          assert r in chunks[i + 1];
        }
        if InSome(chunks, r) {
          var i :| 0 <= i < |chunks| && r in chunks[i];
          if i > 0 { assert r in rest[i - 1]; }
        }
      }
    }
  }

  /** Live events together with the archived ones that are not live. */
  ghost function Restored(live: map<Id, Record>, records: seq<Record>): (all: map<Id, Record>)
    requires Distinct(Ids(records))
  {
    map id | id in live.Keys + IdSet(records) :: if id in live then live[id] else ById(records, id)
  }

  ghost function ById(records: seq<Record>, id: Id): (r: Record)
    requires id in IdSet(records)
    ensures r in records && r.id == id
  {
    var i :| 0 <= i < |records| && records[i].id == id;
    records[i]
  }

  lemma SomeIsArchived(records: seq<Record>, chunks: seq<seq<Record>>, r: Record)
    requires InSome(chunks, r) && forall i :: 0 <= i < |chunks| ==> FromArchive(records, chunks[i])
    ensures r.id in IdSet(records)
  {
  }

  /** Any chunks of an archive that together cover it, repeated, overlapping or out of
      order, reach the same state, and no live event changes. */
  lemma CoveringChunksRestore(live: map<Id, Record>, records: seq<Record>, chunks: seq<seq<Record>>)
    requires Distinct(Ids(records)) && Covers(records, chunks)
    requires forall i :: 0 <= i < |chunks| ==> FromArchive(records, chunks[i])
    ensures MergeAll(live, chunks) == Restored(live, records)
  {
    var merged, all := MergeAll(live, chunks), Restored(live, records);
    forall id ensures (id in merged <==> id in all) && (id in all ==> merged[id] == all[id]) {
      MergedFrom(live, records, chunks, id);
      if id in live {
      } else if id in IdSet(records) {
        assert InSome(chunks, ById(records, id));
        IdDecides(records, merged[id], ById(records, id));
      } else {
        forall r | InSome(chunks, r) ensures r.id in IdSet(records) { SomeIsArchived(records, chunks, r); }
      }
    }
  }

  /** Chunks read at any offsets with any limits. */
  function ChunksAt(records: seq<Record>, spans: seq<(nat, nat)>): seq<seq<Record>>
  {
    seq(|spans|, i requires 0 <= i < |spans| => Chunk(records, spans[i].0, spans[i].1))
  }

  ghost predicate Visited(spans: seq<(nat, nat)>, k: nat)
  {
    exists i :: 0 <= i < |spans| && spans[i].0 <= k < spans[i].0 + spans[i].1
  }

  /** So any reads that reach every index of the archive restore it. */
  lemma ReadsRestore(live: map<Id, Record>, records: seq<Record>, spans: seq<(nat, nat)>)
    requires Distinct(Ids(records))
    requires forall k :: 0 <= k < |records| ==> Visited(spans, k)
    ensures MergeAll(live, ChunksAt(records, spans)) == Restored(live, records)
  {
    var chunks := ChunksAt(records, spans);
    forall r | r in records ensures InSome(chunks, r) {
      var k :| 0 <= k < |records| && records[k] == r;
      assert Visited(spans, k);
      var i :| 0 <= i < |spans| && spans[i].0 <= k < spans[i].0 + spans[i].1;
      assert chunks[i][k - spans[i].0] == r;
    }
    CoveringChunksRestore(live, records, chunks);
  }

  /** Following Next merges the same events as inserting the archive at once. */
  lemma FollowRestores(live: map<Id, Record>, records: seq<Record>, limits: nat -> nat)
    requires Distinct(Ids(records)) && forall i :: 1 <= limits(i)
    ensures MergeAll(live, Follow(records, 0, limits)) == Restored(live, records)
  {
    var chunks := Follow(records, 0, limits);
    ChunksPartition(records, 0, limits);
    forall r ensures r in Concat(chunks) <==> InSome(chunks, r) { ConcatHas(chunks, r); }
    assert records[0..] == records;
    CoveringChunksRestore(live, records, chunks);
  }

  lemma {:induction false} ConcatHas(chunks: seq<seq<Record>>, r: Record)
    ensures r in Concat(chunks) <==> InSome(chunks, r)
  {
    if chunks != [] {
      ConcatHas(chunks[1..], r);
      if InSome(chunks[1..], r) {
        var i :| 0 <= i < |chunks[1..]| && r in chunks[1..][i];
        assert r in chunks[i + 1];
      }
      if InSome(chunks, r) && r !in chunks[0] {
        var i :| 0 <= i < |chunks| && r in chunks[i];
        assert r in chunks[1..][i - 1];
      }
    }
  }

  lemma RestoredIsWhole(live: map<Id, Record>, records: seq<Record>, eligible: seq<Record>)
    requires AllLive(live, records) && SameIds(Ids(records), Ids(eligible))
    ensures Restored(live - IdSet(eligible), records) == live
  {
    var all := Restored(live - IdSet(eligible), records);
    forall id ensures (id in all <==> id in live) && (id in live ==> all[id] == live[id]) {
      SameIdSets(records, eligible, id);
      assert id in IdSet(records) ==> ById(records, id) in records;
    }
  }

  /** Archive, delete, restore is the identity on the events. */
  lemma RestoreUndoesDelete(e: Env, s: State, limits: nat -> nat)
    requires EngineInv(e, s) && Enabled(e, s, Delete) && forall i :: 1 <= limits(i)
    ensures MergeAll(Next(e, s, Delete).live, Follow(ContentsOf(s.engine.archive), 0, limits)) == s.live
  {
    hide Restored, Follow, MergeAll, SameIds, AllLive;
    var records, eligible := s.engine.records, s.engine.job.eligible;
    assert Distinct(Ids(records)) by { SameIdsDistinct(records, eligible); }
    FollowRestores(s.live - IdSet(eligible), records, limits);
    RestoredIsWhole(s.live, records, eligible);
  }

  lemma SameIdsDistinct(a: seq<Record>, b: seq<Record>)
    requires SameIds(Ids(a), Ids(b))
    ensures Distinct(Ids(a))
  {
  }

  lemma SameIdSets(a: seq<Record>, b: seq<Record>, id: Id)
    requires SameIds(Ids(a), Ids(b))
    ensures id in IdSet(a) <==> id in IdSet(b)
  {
    if id in IdSet(a) {
      var i :| 0 <= i < |a| && a[i].id == id;
      assert Ids(a)[i] == id && id in Ids(b);
      var j :| 0 <= j < |b| && Ids(b)[j] == id;
      assert b[j].id == id;
    }
    if id in IdSet(b) {
      var i :| 0 <= i < |b| && b[i].id == id;
      assert Ids(b)[i] == id && id in Ids(a);
      var j :| 0 <= j < |a| && Ids(a)[j] == id;
      assert a[j].id == id;
    }
  }

  // ---- One restore command without faults ----

  /** The states of a restore differ only in its position and in the active payloads. */
  ghost predicate SameButActive(s: State, t: State)
  {
    t == s.(active := t.active, restorer := t.restorer)
  }

  /** The object Put writes for the bytes of a reference. */
  function Home(e: Env, ref: Ref): Slot
    requires ref.store in e.sources
  {
    Slot(ref.store, Addressed(e.sources[ref.store], ref.sum, ref.compression.Gzip?))
  }

  ghost predicate LinkedBy(rs: seq<Record>, slot: Slot)
  {
    exists r :: r in rs && Links(r, slot)
  }

  /** Copying back the entries these records link writes this object. */
  ghost predicate Returns(e: Env, entries: seq<PayloadEntry>, rs: seq<Record>, slot: Slot)
  {
    exists i :: 0 <= i < |entries| && LinkedBy(rs, SlotOf(entries[i].source))
                && entries[i].source.store in e.sources && Home(e, entries[i].source) == slot
  }

  ghost predicate Writes(e: Env, entries: seq<PayloadEntry>, slot: Slot)
  {
    exists i :: 0 <= i < |entries| && entries[i].source.store in e.sources && Home(e, entries[i].source) == slot
  }

  lemma WritesTail(e: Env, entries: seq<PayloadEntry>, slot: Slot)
    requires entries != [] && entries[0].source.store in e.sources
    ensures Writes(e, entries, slot) <==> Home(e, entries[0].source) == slot || Writes(e, entries[1..], slot)
  {
    if Writes(e, entries[1..], slot) {
      var i :| 0 <= i < |entries[1..]| && entries[1..][i].source.store in e.sources && Home(e, entries[1..][i].source) == slot;
      assert entries[i + 1] == entries[1..][i];
    }
    if Writes(e, entries, slot) && Home(e, entries[0].source) != slot {
      var i :| 0 <= i < |entries| && entries[i].source.store in e.sources && Home(e, entries[i].source) == slot;
      assert entries[1..][i - 1] == entries[i];
    }
  }

  lemma ReturnsTail(e: Env, entries: seq<PayloadEntry>, rs: seq<Record>, slot: Slot)
    requires entries != [] && entries[0].source.store in e.sources
    ensures Returns(e, entries, rs, slot)
            <==> (LinkedBy(rs, SlotOf(entries[0].source)) && Home(e, entries[0].source) == slot) || Returns(e, entries[1..], rs, slot)
  {
    hide LinkedBy, Home;
    var rest := entries[1..];
    if Returns(e, rest, rs, slot) {
      var i :| 0 <= i < |rest| && LinkedBy(rs, SlotOf(rest[i].source)) && rest[i].source.store in e.sources && Home(e, rest[i].source) == slot;
      assert entries[i + 1] == rest[i];
    }
    if Returns(e, entries, rs, slot) {
      var i :| 0 <= i < |entries| && LinkedBy(rs, SlotOf(entries[i].source)) && entries[i].source.store in e.sources && Home(e, entries[i].source) == slot;
      assert i > 0 ==> rest[i - 1] == entries[i];
    }
  }

  lemma {:induction false} NeededOk(e: Env, vault: ObjectMap, entries: seq<PayloadEntry>, chunk: seq<Record>)
    requires AllOk(e, vault, entries)
    ensures AllOk(e, vault, Needed(entries, chunk))
  {
    if entries != [] {
      forall i | 0 <= i < |entries[1..]| ensures EntryOk(e, vault, entries[1..][i]) { assert EntryOk(e, vault, entries[i + 1]); }
      NeededOk(e, vault, entries[1..], chunk);
      assert EntryOk(e, vault, entries[0]);
    }
  }

  /** The entries a chunk needs write exactly the objects of the linked entries. */
  lemma {:induction false} NeededWrites(e: Env, vault: ObjectMap, entries: seq<PayloadEntry>, chunk: seq<Record>, slot: Slot)
    requires AllOk(e, vault, entries)
    ensures Writes(e, Needed(entries, chunk), slot) <==> Returns(e, entries, chunk, slot)
  {
    hide Home;
    if entries != [] {
      var rest := entries[1..];
      forall i | 0 <= i < |rest| ensures EntryOk(e, vault, rest[i]) { assert EntryOk(e, vault, entries[i + 1]); }
      assert EntryOk(e, vault, entries[0]);
      NeededWrites(e, vault, rest, chunk, slot);
      ReturnsTail(e, entries, chunk, slot);
      if LinkedBy(chunk, SlotOf(entries[0].source)) {
        var needed := Needed(entries, chunk);
        assert needed == [entries[0]] + Needed(rest, chunk);
        WritesTail(e, needed, slot);
      } else {
        assert Needed(entries, chunk) == Needed(rest, chunk);
      }
    }
  }

  lemma CopyBackStep(e: Env, s: State)
    requires s.restorer.Restoring? && s.restorer.todo != [] && EntryOk(e, s.vault, s.restorer.todo[0])
    ensures Enabled(e, s, RestoreCopy)
    ensures var t := Next(e, s, RestoreCopy); var home := Home(e, s.restorer.todo[0].source);
            && SameButActive(s, t) && t.restorer == Restoring(s.restorer.archive, s.restorer.chunk, s.restorer.todo[1..])
            && forall x :: x in t.active <==> x in s.active || x == home
  {
  }

  function CopySteps(n: nat): seq<Step>
  {
    if n == 0 then [] else [RestoreCopy] + CopySteps(n - 1)
  }

  /** The payloads of a chunk can all be copied back; then exactly their objects are there too. */
  lemma {:induction false} CopiesRun(e: Env, s: State)
    requires s.restorer.Restoring? && AllOk(e, s.vault, s.restorer.todo)
    ensures var steps := CopySteps(|s.restorer.todo|);
            && CanRun(e, s, steps)
            && var t := Reached(e, s, steps);
               && SameButActive(s, t) && t.restorer == Restoring(s.restorer.archive, s.restorer.chunk, [])
               && forall x :: x in t.active <==> x in s.active || Writes(e, s.restorer.todo, x)
    decreases |s.restorer.todo|
  {
    hide Enabled, Next, Home, EntryOk;
    var todo := s.restorer.todo;
    if todo != [] {
      assert EntryOk(e, s.vault, todo[0]);
      assert todo[0].source.store in e.sources by { EntryStore(e, s.vault, todo[0]); }
      CopyBackStep(e, s);
      forall i | 0 <= i < |todo[1..]| ensures EntryOk(e, s.vault, todo[1..][i]) { assert EntryOk(e, s.vault, todo[i + 1]); }
      forall x { WritesTail(e, todo, x); }
      CopiesRun(e, Next(e, s, RestoreCopy));
      RunOne(e, s, RestoreCopy, CopySteps(|todo| - 1));
    }
  }

  lemma EntryStore(e: Env, vault: ObjectMap, entry: PayloadEntry)
    requires EntryOk(e, vault, entry)
    ensures entry.source.store in e.sources
  {
  }

  /** Reading a catalogued archive never fails its checks. */
  lemma ReadStep(e: Env, s: State, archive: Digest, offset: nat, limit: nat)
    requires CatalogInv(e, s.vault, s.catalog) && s.restorer.Resting? && archive in s.catalog && 1 <= limit <= MAX_LIMIT
    ensures Enabled(e, s, RestoreRead(archive, offset, limit))
    ensures var chunk := Chunk(ContentsOf(archive), offset, limit);
            Next(e, s, RestoreRead(archive, offset, limit))
              == s.(restorer := Restoring(archive, chunk, Needed(s.catalog[archive].manifest.payloads, chunk)))
    ensures AllOk(e, s.vault, s.catalog[archive].manifest.payloads)
  {
    hide AllOk, AllFirst, AllSeen;
    assert ProtocolNoLoss.Complete(e, s.vault, s.catalog[archive], ContentsOf(archive));
  }

  lemma MergeStep(e: Env, s: State)
    requires s.restorer.Restoring? && s.restorer.todo == []
    ensures Enabled(e, s, RestoreMerge)
    ensures var t := Next(e, s, RestoreMerge);
            t == s.(live := Insert(s.live, s.restorer.chunk), history := t.history, restorer := Resting)
  {
  }

  /** Read a chunk and copy what it links, stopping before the merge. */
  ghost function PauseSteps(payloads: seq<PayloadEntry>, archive: Digest, offset: nat, limit: nat): seq<Step>
  {
    [RestoreRead(archive, offset, limit)] + CopySteps(|Needed(payloads, Chunk(ContentsOf(archive), offset, limit))|)
  }

  lemma PauseRun(e: Env, s: State, archive: Digest, offset: nat, limit: nat)
    requires Inv(e, s) && s.restorer.Resting? && archive in s.catalog && 1 <= limit <= MAX_LIMIT
    ensures var payloads := s.catalog[archive].manifest.payloads;
            var steps := PauseSteps(payloads, archive, offset, limit);
            var chunk := Chunk(ContentsOf(archive), offset, limit);
            && CanRun(e, s, steps)
            && var t := Reached(e, s, steps);
               && SameButActive(s, t) && t.restorer == Restoring(archive, chunk, [])
               && forall x :: x in t.active <==> x in s.active || Returns(e, payloads, chunk, x)
  {
    hide Enabled, Next, Insert, Chunk, Needed, AllOk, Writes, Returns, Inv;
    assert CatalogInv(e, s.vault, s.catalog) by { InvCatalog(e, s); }
    var a := RestoreRead(archive, offset, limit);
    ReadStep(e, s, archive, offset, limit);
    var t := Next(e, s, a);
    forall x ensures Writes(e, t.restorer.todo, x) <==> Returns(e, s.catalog[archive].manifest.payloads, t.restorer.chunk, x) {
      NeededWrites(e, s.vault, s.catalog[archive].manifest.payloads, t.restorer.chunk, x);
    }
    NeededOk(e, s.vault, s.catalog[archive].manifest.payloads, t.restorer.chunk);
    CopiesRun(e, t);
    RunOne(e, s, a, CopySteps(|t.restorer.todo|));
  }

  lemma InvCatalog(e: Env, s: State)
    requires Inv(e, s)
    ensures CatalogInv(e, s.vault, s.catalog)
  {
  }

  /** The calls of one Restore: read, copy back what the chunk links, merge. */
  ghost function RestoreSteps(payloads: seq<PayloadEntry>, archive: Digest, offset: nat, limit: nat): seq<Step>
  {
    PauseSteps(payloads, archive, offset, limit) + [RestoreMerge]
  }

  /** A restore of any chunk of any catalogued archive can run to its end; it merges exactly
      that chunk and adds exactly the objects of the entries the chunk links. */
  lemma RestoreSucceeds(e: Env, s: State, archive: Digest, offset: nat, limit: nat)
    requires Inv(e, s) && s.restorer.Resting? && archive in s.catalog && 1 <= limit <= MAX_LIMIT
    ensures var payloads := s.catalog[archive].manifest.payloads;
            var steps := RestoreSteps(payloads, archive, offset, limit);
            var chunk := Chunk(ContentsOf(archive), offset, limit);
            && CanRun(e, s, steps)
            && var t := Reached(e, s, steps);
               && t == s.(live := Insert(s.live, chunk), active := t.active, history := t.history)
               && forall x :: x in t.active <==> x in s.active || Returns(e, payloads, chunk, x)
  {
    hide Inv, CanRun, Reached, Enabled, Next, Insert, Chunk, Returns, PauseSteps;
    PauseRun(e, s, archive, offset, limit);
    var pause := PauseSteps(s.catalog[archive].manifest.payloads, archive, offset, limit);
    MergeStep(e, Reached(e, s, pause));
    RunThen(e, s, pause, RestoreMerge);
  }

  /** One restore call at this offset makes the event live again and changes no other. */
  ghost predicate ComesBackAt(e: Env, s: State, id: Id, archive: Digest, offset: nat)
    requires id in s.history.last && archive in s.catalog
  {
    var steps := RestoreSteps(s.catalog[archive].manifest.payloads, archive, offset, 1);
    CanRun(e, s, steps) && Reached(e, s, steps).live == s.live[id := s.history.last[id]]
  }

  lemma HeldComesBack(e: Env, s: State, id: Id, archive: Digest)
    requires Inv(e, s) && s.restorer.Resting? && id in s.history.last && id !in s.live
    requires archive in s.catalog && s.history.last[id] in ContentsOf(archive) && s.history.last[id].id == id
    ensures exists offset: nat :: ComesBackAt(e, s, id, archive, offset)
  {
    hide Inv, CanRun, Reached, RestoreSteps;
    var r := s.history.last[id];
    var k :| 0 <= k < |ContentsOf(archive)| && ContentsOf(archive)[k] == r;
    RestoreSucceeds(e, s, archive, k, 1);
    assert Chunk(ContentsOf(archive), k, 1) == [r];
    assert Insert(s.live, [r]) == s.live[id := r] by { assert [r][1..] == []; }
    assert ComesBackAt(e, s, id, archive, k);
  }

  lemma MappedIsHeld(e: Env, s: State, id: Id)
    requires Inv(e, s) && id in s.history.last && id !in s.live
    ensures id in s.mapping && s.mapping[id] in s.catalog
    ensures s.history.last[id] in ContentsOf(s.mapping[id]) && s.history.last[id].id == id
  {
  }

  /** From every reachable state every event ever stored that is not live can be brought
      back by one restore call, in its last live version, and nothing else changes. */
  lemma {:induction false} EventComesBack(e: Env, clock: int, steps: seq<Step>, id: Id)
    requires CanRun(e, Start(clock), steps)
    requires var s := Reached(e, Start(clock), steps); s.restorer.Resting? && id in s.history.last && id !in s.live
    ensures var s := Reached(e, Start(clock), steps);
            && id in s.mapping && s.mapping[id] in s.catalog
            && exists offset: nat :: ComesBackAt(e, s, id, s.mapping[id], offset)
  {
    hide CanRun, Reached, ComesBackAt;
    RunKeeps(e, Start(clock), steps);
    var s := Reached(e, Start(clock), steps);
    MappedIsHeld(e, s, id);
    HeldComesBack(e, s, id, s.mapping[id]);
  }

  // ---- The command ----

  lemma CatalogReads(e: Env, s: State, archive: Digest)
    requires Inv(e, s) && archive in s.catalog
    ensures ReadManifest(s.vault, s.catalog[archive].manifestRef) == Some(s.catalog[archive].manifest) && s.catalog[archive].manifest.id == archive
    ensures ArchivedEvents(s.vault, s.catalog[archive].manifest) == Some(ContentsOf(archive))
  {
  }

  lemma ReadStepOk(e: Env, s: State, archive: Digest, offset: nat, limit: nat)
    requires Inv(e, s) && s.restorer.Resting? && archive in s.catalog && 1 <= limit <= MAX_LIMIT
    ensures Enabled(e, s, RestoreRead(archive, offset, limit))
    ensures var t := Next(e, s, RestoreRead(archive, offset, limit));
            && t == s.(restorer := t.restorer)
            && t.restorer.Restoring? && t.restorer.chunk == Chunk(ContentsOf(archive), offset, limit)
            && AllOk(e, s.vault, t.restorer.todo)
  {
    hide Enabled, Next, AllOk, Chunk, Inv;
    InvCatalog(e, s);
    ReadStep(e, s, archive, offset, limit);
    NeededOk(e, s.vault, s.catalog[archive].manifest.payloads, Chunk(ContentsOf(archive), offset, limit));
  }

  lemma RestIsOk(e: Env, s: State)
    requires s.restorer.Restoring? && s.restorer.todo != [] && AllOk(e, s.vault, s.restorer.todo)
    ensures RestoreCopyable(e, s, s.restorer.todo[0]) && AllOk(e, s.vault, s.restorer.todo[1..])
  {
  }

  datatype Summary = Summary(restored: nat, next: nat, complete: bool)

  /** Restore on the state a retention engine also works on: read the chunk, copy the
      payloads it links, then merge.  Any call may fail; what was copied stays. */
  method RestoreChunk(w: RetentionEngine.Engine, archive: Digest, offset: int, limit: int) returns (r: Result<Summary>)
    requires w.Valid() && w.s.restorer.Resting?
    modifies w
    ensures w.Valid() && w.s.restorer.Resting? && old(w.steps) <= w.steps && w.s.catalog == old(w.s.catalog) && w.s.vault == old(w.s.vault)
    ensures r.Err? ==> w.s.live == old(w.s.live) || (ValidRead(offset, limit) && w.s.live == Insert(old(w.s.live), Chunk(ContentsOf(archive), offset, limit)))
    ensures r.Ok? ==>
      && ValidRead(offset, limit) && archive in w.s.catalog
      && var chunk := Chunk(ContentsOf(archive), offset, limit);
         && w.s.live == Insert(old(w.s.live), chunk)
         && r.value.restored == |chunk|
         && r.value.complete == (offset + |chunk| >= |ContentsOf(archive)|)
         && (!r.value.complete ==> r.value.next == offset + |chunk|)
    ensures w.reliable && archive in old(w.s.catalog) && ValidRead(offset, limit) ==> r.Ok?
  {
    hide Inv, ProtocolGc.GcInv, CanRun, Reached, Enabled, Next, Insert, Chunk, Needed, ArchivedEvents, ReadManifest, AllOk;
    if archive !in w.s.catalog { return Err("archive not found"); }
    CatalogReads(w.e, w.s, archive);
    var fault := w.Fault();
    var manifest := ReadManifest(w.s.vault, w.s.catalog[archive].manifestRef);
    if manifest.None? || manifest.value.id != archive { return Err("manifest"); }
    var read := ReadEvents(w.s.vault, manifest.value, offset, limit, fault);
    if read.Err? { return Err(read.error); }
    ReadStepOk(w.e, w.s, archive, offset, limit);
    w.Do(RestoreRead(archive, offset, limit));
    var copied := CopyBack(w);
    if !copied { return Err("payload"); }
    MergeStep(w.e, w.s);
    w.Do(RestoreMerge);
    var lost := w.Fault();
    if lost { return Err("commit"); }
    return Ok(Summary(|read.value.0|, offset + |read.value.0|, read.value.1));
  }

  method CopyBack(w: RetentionEngine.Engine) returns (ok: bool)
    requires w.Valid() && w.s.restorer.Restoring?
    modifies w
    ensures w.Valid() && old(w.steps) <= w.steps && SameButActive(old(w.s), w.s)
    ensures if ok then w.s.restorer == old(w.s.restorer).(todo := []) else w.s.restorer.Resting?
    ensures w.reliable && AllOk(w.e, old(w.s.vault), old(w.s.restorer.todo)) ==> ok
  {
    hide Inv, ProtocolGc.GcInv, CanRun, Reached, Enabled, Next, AllOk, RestoreCopyable;
    while w.s.restorer.todo != []
      invariant w.Valid() && old(w.steps) <= w.steps && SameButActive(old(w.s), w.s)
      invariant w.s.restorer.Restoring? && w.s.restorer == old(w.s.restorer).(todo := w.s.restorer.todo)
      invariant AllOk(w.e, old(w.s.vault), old(w.s.restorer.todo)) ==> AllOk(w.e, w.s.vault, w.s.restorer.todo)
      decreases |w.s.restorer.todo|
    {
      if AllOk(w.e, w.s.vault, w.s.restorer.todo) { RestIsOk(w.e, w.s); }
      var fault := w.Fault();
      if fault || !RestoreCopyable(w.e, w.s, w.s.restorer.todo[0]) {
        StopStep(w.e, w.s);
        w.Do(RestoreAbort);
        return false;
      }
      CopyableStep(w.e, w.s);
      w.Do(RestoreCopy);
    }
    ok := true;
  }

  lemma StopStep(e: Env, s: State)
    ensures Enabled(e, s, RestoreAbort) && Next(e, s, RestoreAbort) == s.(restorer := Resting)
  {
  }

  lemma CopyableStep(e: Env, s: State)
    requires s.restorer.Restoring? && s.restorer.todo != [] && RestoreCopyable(e, s, s.restorer.todo[0])
    ensures Enabled(e, s, RestoreCopy)
    ensures var t := Next(e, s, RestoreCopy);
            SameButActive(s, t) && t.restorer == Restoring(s.restorer.archive, s.restorer.chunk, s.restorer.todo[1..])
  {
  }
}
