/**
 Archive-then-delete retention, payload garbage collection and restore as one state
 machine over the event store, the archive catalog, the archive and active object
 stores and the clock.  Every database statement that may be durable on its own and
 every object-store call is a step; a call that fails without effect is no step, and
 Abort may follow any step, which is a crash or an error return at that point.
 PostgreSQL runs Catalog and Map, and Stage and Delete, in one transaction;
 ClickHouse does not.
 */
module Protocol {
  import opened Common
  import opened Objects
  import Policy

  /** Configuration: sources maps each configured active store to its key prefix. */
  datatype Env = Env(config: Policy.Config, grace: nat, sources: map<string, string>, vaultPrefix: string)

  datatype Candidate = Candidate(
    ref: Ref, eligibleAt: int, candidateAt: int, retryAfter: int, attempts: nat, archive: Option<Digest>)

  /** One page of a run: the expired events and the payload expiries they assign. */
  datatype Job = Job(now: int, eligible: seq<Record>, times: Policy.Times)

  /** Position of the retention process; it is volatile. */
  datatype Phase =
    | Idle
    | Paged(job: Job)
    | Loaded(job: Job, records: seq<Record>)
    | Writing(job: Job, records: seq<Record>, next: nat, entries: seq<PayloadEntry>)
    | Written(job: Job, records: seq<Record>, receipt: Receipt)
    | Catalogued(job: Job, records: seq<Record>, receipt: Receipt)
    | Recorded(job: Job, records: seq<Record>, archive: Digest)
    | Staged(job: Job, records: seq<Record>, archive: Digest)
    | Listed(now: int, listed: seq<Candidate>)
    | Collecting(now: int, listed: seq<Candidate>, verdict: map<Slot, bool>, removed: set<Slot>, completed: set<Slot>)

  /** Position of a restore command. */
  datatype Restorer = Resting | Restoring(archive: Digest, chunk: seq<Record>, todo: seq<PayloadEntry>)

  /** What has happened so far: every record version ever inserted, the version of an
      event that was inserted last, the expiries deleted events gave their payloads, and when
      the current candidate row of an object was first staged. */
  datatype History = History(
    stored: set<Record>, last: map<Id, Record>, expiries: set<(Slot, int)>, firstStaged: map<Slot, int>)

  datatype State = State(
    clock: int,
    live: map<Id, Record>,            // trail_events
    catalog: map<Digest, Receipt>,    // trail_archives
    mapping: map<Id, Digest>,         // trail_event_archives
    vault: ObjectMap,                 // the archive object store
    active: map<Slot, Content>,       // the active payload stores
    candidates: map<Slot, Candidate>, // trail_payload_gc_candidates
    engine: Phase,
    restorer: Restorer,
    history: History)

  datatype Step =
    // the environment
    | Tick(to: int)
    | PutPayload(store: string, prefix: string, content: Content, compression: Compression)
    | Ingest(batch: seq<Record>)
    | Leftover(content: Content, compression: Compression) // an archive object of a failed attempt
    // one page of a retention run
    | Scan(now: int, eligible: seq<Record>)
    | Load(records: seq<Record>)
    | WriteEvents
    | CopyNext
    | WriteManifest(createdAt: int)
    | Catalog(replace: bool)
    | Map
    | Stage(reset: bool)
    | Delete
    | Abort
    // payload collection
    | List(now: int, listed: seq<Candidate>)
    | Lookup
    | Remove(slot: Slot)
    | Complete(slot: Slot)
    | Fail(slot: Slot)
    // restore
    | RestoreRead(archive: Digest, offset: nat, limit: nat)
    | RestoreCopy
    | RestoreMerge
    | RestoreAbort

  const HOUR: int := 3_600_000_000_000

  const ARCHIVE := "archive"

  function Start(clock: int): State
  {
    State(clock, map[], map[], map[], map[], map[], map[], Idle, Resting, History({}, map[], {}, map[]))
  }

  // ---- Inserting events ----

  /** INSERT ... ON CONFLICT (event_id) DO NOTHING, row by row in one transaction. */
  function Insert(live: map<Id, Record>, rs: seq<Record>): map<Id, Record>
    decreases |rs|
  {
    if rs == [] then live
    else Insert(if rs[0].id in live then live else live[rs[0].id := rs[0]], rs[1..])
  }

  function Remember(h: History, before: map<Id, Record>, after: map<Id, Record>): History
  {
    h.(stored := h.stored + (set id | id in after && id !in before :: after[id]),
       last := h.last + (map id | id in after && id !in before :: after[id]))
  }

  function InsertInto(s: State, rs: seq<Record>): State
  {
    s.(live := Insert(s.live, rs), history := Remember(s.history, s.live, Insert(s.live, rs)))
  }

  // ---- Writing a bundle ----

  function EventsRef(e: Env, records: seq<Record>): Ref
  {
    RefFor(ARCHIVE, e.vaultPrefix, EventsDoc(records), "application/x-ndjson", Gzip, None, "")
  }

  predicate Seen(entries: seq<PayloadEntry>, slot: Slot)
  {
    exists i :: 0 <= i < |entries| && SlotOf(entries[i].source) == slot
  }

  /** A store serves keys under its configured prefix; objects may have been written when
      the prefix was a longer one. */
  predicate Serves(e: Env, slot: Slot)
  {
    slot.store in e.sources && slot.key.Addressed? && e.sources[slot.store] <= slot.key.prefix
  }

  /** The logical bytes of an active object, if the reference can be opened. */
  function Open(e: Env, active: map<Slot, Content>, ref: Ref): Option<Content>
  {
    if !Serves(e, SlotOf(ref)) || SlotOf(ref) !in active then None
    else Unpack(active[SlotOf(ref)], ref.compression)
  }

  /** A copy is kept only if its checksum and size are those of the reference. */
  predicate Verified(c: Content, ref: Ref)
  {
    Sum(c) == ref.sum && SizeOf(c) == ref.size
  }

  predicate Copyable(e: Env, active: map<Slot, Content>, ref: Ref)
  {
    Open(e, active, ref).Some? && !ref.compression.Unsupported? && Verified(Open(e, active, ref).value, ref)
  }

  function EntryFor(e: Env, c: Content, ref: Ref): PayloadEntry
  {
    PayloadEntry(ref, RefFor(ARCHIVE, e.vaultPrefix, c, ref.contentType, ref.compression, ref.retainUntil, ref.retentionClass))
  }

  function ManifestFor(e: Env, records: seq<Record>, createdAt: int, entries: seq<PayloadEntry>): Manifest
  {
    Manifest(Sum(EventsDoc(records)), createdAt, Ids(records), EventsRef(e, records), entries)
  }

  function ReceiptFor(e: Env, m: Manifest): Receipt
  {
    Receipt(m, RefFor(ARCHIVE, e.vaultPrefix, ManifestDoc(m), "application/vnd.trail.archive-manifest+json", Plain, None, ""))
  }

  /** What sameArchiveEvents accepts: both lists free of duplicates, with equal ID sets. */
  predicate SameIds(a: seq<Id>, b: seq<Id>)
  {
    Distinct(a) && Distinct(b) && (forall id :: id in a ==> id in b) && (forall id :: id in b ==> id in a)
  }

  // ---- Deleting ----

  /** Objects a deletion stages: those with an assigned expiry and a usable reference. */
  predicate Stageable(slot: Slot)
  {
    slot.store != "" && slot.key != EMPTY_KEY
  }

  function FirstRef(refs: seq<Ref>, slot: Slot): Option<Ref>
  {
    if refs == [] then None else if SlotOf(refs[0]) == slot then Some(refs[0]) else FirstRef(refs[1..], slot)
  }

  function StagedRow(row: Option<Candidate>, ref: Ref, at: int, archive: Digest, now: int, reset: bool): Candidate
  {
    if row.None? then Candidate(ref, at, now, now, 0, Some(archive))
    else row.value.(ref := ref, archive := Some(archive),
                    eligibleAt := if at > row.value.eligibleAt then at else row.value.eligibleAt,
                    retryAfter := if reset then now else row.value.retryAfter,
                    attempts := if reset then 0 else row.value.attempts)
  }

  function ToStage(job: Job): set<Slot>
  {
    set slot | slot in job.times && Stageable(slot) && FirstRef(AllRefs(job.eligible), slot).Some?
  }

  function StageAll(s: State, job: Job, archive: Digest, reset: bool): State
  {
    var slots := ToStage(job);
    s.(candidates := map slot | slot in s.candidates.Keys + slots ::
         if slot in slots then
           StagedRow(if slot in s.candidates then Some(s.candidates[slot]) else None,
                     FirstRef(AllRefs(job.eligible), slot).value, job.times[slot], archive, s.clock, reset)
         else s.candidates[slot],
       history := s.history.(firstStaged := s.history.firstStaged
         + (map slot | slot in slots && slot !in s.candidates :: s.clock)))
  }

  /** SELECT count(*) ... WHERE archive_id = a AND event_id = ANY(ids) */
  function Coverage(mapping: map<Id, Digest>, a: Digest, ids: seq<Id>): nat
  {
    |CoveringRows(mapping, a, ids)|
  }

  function CoveringRows(mapping: map<Id, Digest>, a: Digest, ids: seq<Id>): set<Id>
  {
    set id | id in mapping && id in ids && mapping[id] == a
  }

  function IdSet(rs: seq<Record>): set<Id>
  {
    set i | 0 <= i < |rs| :: rs[i].id
  }

  /** The expiries the deletion of these events assigns to their payloads. */
  function Assignments(c: Policy.Config, rs: seq<Record>): set<(Slot, int)>
  {
    set r, link | r in rs && link in r.links && Stageable(SlotOf(link.ref)) && Policy.PayloadExpiry(c, r, link).Some?
      :: (SlotOf(link.ref), Policy.PayloadExpiry(c, r, link).value)
  }

  // ---- Collecting payloads ----

  predicate Referenced(live: map<Id, Record>, slot: Slot)
  {
    exists id :: id in live && Links(live[id], slot)
  }

  predicate Links(r: Record, slot: Slot)
  {
    exists i :: 0 <= i < |r.links| && SlotOf(r.links[i].ref) == slot
  }

  predicate Ready(e: Env, clock: int, now: int, c: Candidate)
  {
    c.archive.Some? && c.eligibleAt <= clock && c.candidateAt <= now - e.grace && c.retryAfter <= clock
  }

  /** validContentAddressedRef */
  predicate ValidAddressed(r: Ref)
  {
    r.store != "" && r.key != EMPTY_KEY && r.sum != Zero && r.key.Addressed? && r.key.sum == r.sum
  }

  predicate Listable(e: Env, s: State, now: int, listed: seq<Candidate>)
  {
    && (forall i :: 0 <= i < |listed| ==>
          SlotOf(listed[i].ref) in s.candidates && s.candidates[SlotOf(listed[i].ref)] == listed[i] && Ready(e, s.clock, now, listed[i]))
    && (forall i, j :: 0 <= i < j < |listed| ==> SlotOf(listed[i].ref) != SlotOf(listed[j].ref))
  }

  function Verdicts(live: map<Id, Record>, listed: seq<Candidate>): map<Slot, bool>
  {
    map i | 0 <= i < |listed| :: SlotOf(listed[i].ref) := Referenced(live, SlotOf(listed[i].ref))
  }

  predicate Pending(p: Phase, slot: Slot)
  {
    p.Collecting? && slot in p.verdict && slot !in p.completed
  }

  // ---- Restoring ----

  function ReadManifest(vault: ObjectMap, ref: Ref): Option<Manifest>
  {
    if ref.key in vault && vault[ref.key].ManifestDoc? && Sum(vault[ref.key]) == ref.sum then Some(vault[ref.key].manifest) else None
  }

  /** All events of an archive, if the object is there and its count and checksum are right. */
  function ArchivedEvents(vault: ObjectMap, m: Manifest): Option<seq<Record>>
  {
    if m.events.key !in vault then None
    else
      var doc := Unpack(vault[m.events.key], m.events.compression);
      if doc.Some? && doc.value.EventsDoc? && |doc.value.records| == |m.eventIDs| && Sum(doc.value) == m.events.sum
      then Some(doc.value.records) else None
  }

  /** At most limit events beginning at offset. */
  function Chunk(records: seq<Record>, offset: nat, limit: nat): seq<Record>
  {
    if offset >= |records| then []
    else if offset + limit <= |records| then records[offset..offset + limit]
    else records[offset..]
  }

  function Needed(entries: seq<PayloadEntry>, chunk: seq<Record>): seq<PayloadEntry>
  {
    if entries == [] then []
    else (if exists r :: r in chunk && Links(r, SlotOf(entries[0].source)) then [entries[0]] else []) + Needed(entries[1..], chunk)
  }

  /** The slot a restored payload is written to: the key follows from its bytes. */
  function RestoredSlot(e: Env, entry: PayloadEntry, c: Content): Slot
    requires entry.source.store in e.sources
  {
    Slot(entry.source.store, KeyFor(e.sources[entry.source.store], c, entry.source.compression))
  }

  function ArchivedPayload(vault: ObjectMap, entry: PayloadEntry): Option<Content>
  {
    if entry.archive.key in vault then Unpack(vault[entry.archive.key], entry.archive.compression) else None
  }

  predicate RestoreReadable(s: State, archive: Digest)
  {
    && archive in s.catalog
    && ReadManifest(s.vault, s.catalog[archive].manifestRef).Some?
    && ReadManifest(s.vault, s.catalog[archive].manifestRef).value.id == s.catalog[archive].manifest.id
    && ArchivedEvents(s.vault, ReadManifest(s.vault, s.catalog[archive].manifestRef).value).Some?
  }

  predicate RestoreCopyable(e: Env, s: State, entry: PayloadEntry)
  {
    && entry.source.store in e.sources && !entry.source.compression.Unsupported?
    && ArchivedPayload(s.vault, entry).Some? && Verified(ArchivedPayload(s.vault, entry).value, entry.source)
  }

  // ---- Steps ----

  predicate Enabled(e: Env, s: State, a: Step)
  {
    var p := s.engine;
    match a
    case Tick(to) => to >= s.clock
    case PutPayload(store, prefix, _, compression) => store in e.sources && e.sources[store] <= prefix && !compression.Unsupported?
    case Ingest(_) => true
    case Leftover(_, _) => true
    case Scan(now, eligible) =>
      p.Idle? && now <= s.clock && eligible != []
      && (forall r :: r in eligible ==> r.id in s.live && s.live[r.id] == r && Policy.Expired(e.config, r, now))
    case Load(records) =>
      p.Paged? && (forall r :: r in records ==> r.id in s.live && s.live[r.id] == r)
      && SameIds(Ids(records), Ids(p.job.eligible))
    case WriteEvents => p.Loaded? && p.records != []
    case CopyNext =>
      p.Writing? && p.next < |AllRefs(p.records)|
      && (Seen(p.entries, SlotOf(AllRefs(p.records)[p.next])) || Copyable(e, s.active, AllRefs(p.records)[p.next]))
    case WriteManifest(_) => p.Writing? && p.next == |AllRefs(p.records)|
    case Catalog(_) => p.Written?
    case Map => p.Catalogued?
    case Stage(_) => p.Recorded?
    case Delete => p.Staged? && Coverage(s.mapping, p.archive, Ids(p.job.eligible)) == |p.job.eligible|
    case Abort => true
    case List(now, listed) => p.Idle? && now <= s.clock && Listable(e, s, now, listed)
    case Lookup => p.Listed?
    case Remove(slot) =>
      Pending(p, slot) && !p.verdict[slot] && slot !in p.removed && slot.store in e.sources
      && slot in s.candidates && ValidAddressed(s.candidates[slot].ref)
    case Complete(slot) => Pending(p, slot) && (p.verdict[slot] || slot in p.removed)
    case Fail(slot) => Pending(p, slot) && !p.verdict[slot] && slot in s.candidates
    case RestoreRead(archive, _, limit) => s.restorer.Resting? && 1 <= limit <= 10_000 && RestoreReadable(s, archive)
    case RestoreCopy => s.restorer.Restoring? && s.restorer.todo != [] && RestoreCopyable(e, s, s.restorer.todo[0])
    case RestoreMerge => s.restorer.Restoring? && s.restorer.todo == []
    case RestoreAbort => true
  }

  function CopyOne(e: Env, s: State): State
    requires s.engine.Writing? && s.engine.next < |AllRefs(s.engine.records)|
    requires Seen(s.engine.entries, SlotOf(AllRefs(s.engine.records)[s.engine.next]))
             || Copyable(e, s.active, AllRefs(s.engine.records)[s.engine.next])
  {
    var p := s.engine;
    var ref := AllRefs(p.records)[p.next];
    if Seen(p.entries, SlotOf(ref)) then s.(engine := p.(next := p.next + 1))
    else
      var c := Open(e, s.active, ref).value;
      s.(vault := Put(s.vault, e.vaultPrefix, c, ref.compression),
         engine := p.(next := p.next + 1, entries := p.entries + [EntryFor(e, c, ref)]))
  }

  function Next(e: Env, s: State, a: Step): State
    requires Enabled(e, s, a)
  {
    var p := s.engine;
    match a
    case Tick(to) => s.(clock := to)
    case PutPayload(store, prefix, c, compression) =>
      s.(active := s.active[Slot(store, KeyFor(prefix, c, compression)) := Pack(c, compression.Gzip?)])
    case Ingest(batch) => InsertInto(s, batch)
    case Leftover(c, compression) => s.(vault := Put(s.vault, e.vaultPrefix, c, compression))
    case Scan(now, eligible) => s.(engine := Paged(Job(now, eligible, Policy.PageTimes(e.config, eligible))))
    case Load(records) => s.(engine := Loaded(p.job, records))
    case WriteEvents =>
      s.(vault := Put(s.vault, e.vaultPrefix, EventsDoc(p.records), Gzip), engine := Writing(p.job, p.records, 0, []))
    case CopyNext => CopyOne(e, s)
    case WriteManifest(createdAt) =>
      var m := ManifestFor(e, p.records, createdAt, p.entries);
      s.(vault := Put(s.vault, e.vaultPrefix, ManifestDoc(m), Plain), engine := Written(p.job, p.records, ReceiptFor(e, m)))
    case Catalog(replace) =>
      s.(catalog := if p.receipt.manifest.id in s.catalog && !replace then s.catalog else s.catalog[p.receipt.manifest.id := p.receipt],
         engine := Catalogued(p.job, p.records, p.receipt))
    case Map =>
      s.(mapping := s.mapping + (map id | id in p.receipt.manifest.eventIDs :: p.receipt.manifest.id),
         engine := Recorded(p.job, p.records, p.receipt.manifest.id))
    case Stage(reset) => StageAll(s, p.job, p.archive, reset).(engine := Staged(p.job, p.records, p.archive))
    case Delete =>
      s.(live := s.live - IdSet(p.job.eligible), engine := Idle,
         history := s.history.(expiries := s.history.expiries + Assignments(e.config, p.job.eligible)))
    case Abort => s.(engine := Idle)
    case List(now, listed) => s.(engine := Listed(now, listed))
    case Lookup => s.(engine := Collecting(p.now, p.listed, Verdicts(s.live, p.listed), {}, {}))
    case Remove(slot) => s.(active := s.active - {slot}, engine := p.(removed := p.removed + {slot}))
    case Complete(slot) => s.(candidates := s.candidates - {slot}, engine := p.(completed := p.completed + {slot}))
    case Fail(slot) =>
      s.(candidates := s.candidates[slot := s.candidates[slot].(attempts := s.candidates[slot].attempts + 1, retryAfter := s.clock + HOUR)],
         engine := p.(completed := p.completed + {slot}))
    case RestoreRead(archive, offset, limit) =>
      var m := ReadManifest(s.vault, s.catalog[archive].manifestRef).value;
      var chunk := Chunk(ArchivedEvents(s.vault, m).value, offset, limit);
      s.(restorer := Restoring(archive, chunk, Needed(m.payloads, chunk)))
    case RestoreCopy =>
      var entry := s.restorer.todo[0];
      var c := ArchivedPayload(s.vault, entry).value;
      s.(active := s.active[RestoredSlot(e, entry, c) := Pack(c, entry.source.compression.Gzip?)],
         restorer := s.restorer.(todo := s.restorer.todo[1..]))
    case RestoreMerge => InsertInto(s, s.restorer.chunk).(restorer := Resting)
    case RestoreAbort => s.(restorer := Resting)
  }

  predicate CanRun(e: Env, s: State, steps: seq<Step>)
    decreases |steps|
  {
    steps == [] || (Enabled(e, s, steps[0]) && CanRun(e, Next(e, s, steps[0]), steps[1..]))
  }

  function Reached(e: Env, s: State, steps: seq<Step>): State
    requires CanRun(e, s, steps)
    decreases |steps|
  {
    if steps == [] then s else Reached(e, Next(e, s, steps[0]), steps[1..])
  }

  // ---- Putting runs together ----

  lemma RunOne(e: Env, s: State, a: Step, rest: seq<Step>)
    requires Enabled(e, s, a) && CanRun(e, Next(e, s, a), rest)
    ensures CanRun(e, s, [a] + rest) && Reached(e, s, [a] + rest) == Reached(e, Next(e, s, a), rest)
  {
  }

  lemma {:induction false} RunConcat(e: Env, s: State, a: seq<Step>, b: seq<Step>)
    requires CanRun(e, s, a) && CanRun(e, Reached(e, s, a), b)
    ensures CanRun(e, s, a + b) && Reached(e, s, a + b) == Reached(e, Reached(e, s, a), b)
    decreases |a|
  {
    hide Enabled, Next;
    if a == [] {
      assert a + b == b;
    } else {
      RunConcat(e, Next(e, s, a[0]), a[1..], b);
      assert (a + b)[1..] == a[1..] + b;
    }
  }

  lemma RunThen(e: Env, s: State, steps: seq<Step>, a: Step)
    requires CanRun(e, s, steps) && Enabled(e, Reached(e, s, steps), a)
    ensures CanRun(e, s, steps + [a]) && Reached(e, s, steps + [a]) == Next(e, Reached(e, s, steps), a)
  {
    hide Enabled, Next;
    var t := Reached(e, s, steps);
    assert CanRun(e, Next(e, t, a), []);
    assert [a] + [] == [a];
    RunOne(e, t, a, []);
    RunConcat(e, s, steps, [a]);
  }

  lemma RunTwo(e: Env, s: State, a: Step, b: Step)
    requires Enabled(e, s, a) && Enabled(e, Next(e, s, a), b)
    ensures CanRun(e, s, [a, b]) && Reached(e, s, [a, b]) == Next(e, Next(e, s, a), b)
  {
    hide Enabled, Next;
    assert CanRun(e, Next(e, s, a), []);
    assert [a] + [] == [a] && [a] + [b] == [a, b];
    RunOne(e, s, a, []);
    RunThen(e, s, [a], b);
  }

  lemma RunThree(e: Env, s: State, a: Step, b: Step, c: Step)
    requires Enabled(e, s, a) && Enabled(e, Next(e, s, a), b) && Enabled(e, Next(e, Next(e, s, a), b), c)
    ensures CanRun(e, s, [a, b, c]) && Reached(e, s, [a, b, c]) == Next(e, Next(e, Next(e, s, a), b), c)
  {
    hide Enabled, Next;
    assert [a, b] + [c] == [a, b, c];
    RunTwo(e, s, a, b);
    RunThen(e, s, [a, b], c);
  }
}
