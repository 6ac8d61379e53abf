/** Engine.Run over the protocol: every store call of a run is a step of the protocol,
    so its safety theorems apply to each state a run passes through, and what a
    completed run deletes and counts is the plain filter of the first events. */
module RetentionEngine {
  import opened Common
  import opened Objects
  import opened Protocol
  import Policy
  import opened ProtocolNoLoss
  import opened ProtocolGc
  import opened Collection
  import opened Keyset
  import opened RetentionPage

  datatype Limits = Limits(batchSize: nat, maxEvents: nat, payloadBatch: nat, maxPayloads: nat, concurrency: nat)

  /** The counters of the scan. */
  datatype Swept = Swept(scanned: nat, matched: nat, eligible: nat, deleted: nat, errors: nat)

  // ---- What a run should do ----

  ghost function FirstEvents(live: map<Id, Record>, maxEvents: nat): seq<Record>
    requires Keyed(live)
  {
    Take(Listing(live), maxEvents)
  }

  lemma IdSetConcat(a: seq<Record>, b: seq<Record>)
    ensures IdSet(a + b) == IdSet(a) + IdSet(b)
  {
    forall id | id in IdSet(b) ensures id in IdSet(a + b) {
      var i :| 0 <= i < |b| && b[i].id == id;
      assert (a + b)[|a| + i].id == id;
    }
    forall id | id in IdSet(a) ensures id in IdSet(a + b) {
      var i :| 0 <= i < |a| && a[i].id == id;
      assert (a + b)[i].id == id;
    }
  }

  /** What the run has deleted after k rows lies among those rows. */
  lemma GoneIsBehind(c: Policy.Config, all: seq<Record>, k: nat, now: int, id: Id)
    requires k <= |all| && id in IdSet(ExpiredOf(c, all[..k], now))
    ensures exists i :: 0 <= i < k && all[i].id == id
  {
    var expired := ExpiredOf(c, all[..k], now);
    ExpiredOfFacts(c, all[..k], now);
    var j :| 0 <= j < |expired| && expired[j].id == id;
    assert expired[j] in all[..k];
    var i :| 0 <= i < k && all[..k][i] == expired[j];
    assert all[i].id == id;
  }

  /** The expired events of a page are live when the page is processed. */
  lemma PageIsLive(c: Policy.Config, live: map<Id, Record>, gone: set<Id>, k: nat, n: nat, now: int)
    requires Keyed(live) && k <= n <= |Listing(live)|
    requires forall id :: id in gone ==> exists i :: 0 <= i < k && Listing(live)[i].id == id
    ensures forall r :: r in ExpiredOf(c, Listing(live)[k..n], now) ==> In(live - gone, r) && Policy.Expired(c, r, now)
  {
    var page := Listing(live)[k..n];
    ExpiredOfFacts(c, page, now);
    forall r | r in ExpiredOf(c, page, now) ensures In(live - gone, r) {
      var i :| 0 <= i < |page| && page[i] == r;
      assert Listing(live)[k + i] == r;
      Survives(live, gone, k, k + i);
    }
  }

  lemma {:induction false} ExpiredOfSorted(c: Policy.Config, page: seq<Record>, now: int)
    requires Sorted(page)
    ensures Sorted(ExpiredOf(c, page, now))
  {
    if page != [] {
      var n := |page| - 1;
      ExpiredOfSorted(c, page[..n], now);
      ExpiredOfFacts(c, page[..n], now);
      var init := ExpiredOf(c, page[..n], now);
      forall i | 0 <= i < |init| ensures Before(init[i], page[n]) {
        assert init[i] in page[..n];
        var j :| 0 <= j < n && page[..n][j] == init[i];
        assert Before(page[j], page[n]);
      }
    }
  }

  lemma SortedDistinct(rs: seq<Record>, live: map<Id, Record>)
    requires Sorted(rs) && forall r :: r in rs ==> In(live, r)
    ensures Distinct(Ids(rs))
  {
    forall i, j | 0 <= i < j < |rs| ensures Ids(rs)[i] != Ids(rs)[j] {
      assert Before(rs[i], rs[j]);
      assert In(live, rs[i]) && In(live, rs[j]);
    }
  }

  lemma SameAsItself(rs: seq<Record>)
    requires Distinct(Ids(rs))
    ensures SameIds(Ids(rs), Ids(rs))
  {
  }

  /** Live rows with the same identifiers are the same rows. */
  lemma SameRows(live: map<Id, Record>, a: seq<Record>, b: seq<Record>)
    requires SameIds(Ids(a), Ids(b)) && (forall r :: r in a ==> In(live, r)) && (forall r :: r in b ==> In(live, r))
    ensures forall r :: r in a <==> r in b
    ensures b != [] ==> a != []
  {
    forall r | r in a ensures r in b { RowIn(live, a, b, r); }
    forall r | r in b ensures r in a { RowIn(live, b, a, r); }
    if b != [] { assert b[0] in b; }
  }

  lemma RowIn(live: map<Id, Record>, a: seq<Record>, b: seq<Record>, r: Record)
    requires r in a && In(live, r) && (forall q :: q in b ==> In(live, q)) && (forall id :: id in Ids(a) ==> id in Ids(b))
    ensures r in b
  {
    var i :| 0 <= i < |a| && a[i] == r;
    assert Ids(a)[i] == r.id && r.id in Ids(b);
    var j :| 0 <= j < |Ids(b)| && Ids(b)[j] == r.id;
    assert b[j] in b && In(live, b[j]);
  }

  /** Where a run stands after k rows of the listing it started from. */
  ghost predicate At(c: Policy.Config, live: map<Id, Record>, now: int, dryRun: bool, k: nat, current: map<Id, Record>, cursor: Option<Record>)
    requires Keyed(live)
  {
    && k <= |Listing(live)|
    && current == live - Gone(c, live, now, dryRun, k)
    && cursor == (if k == 0 then None else Some(Listing(live)[k - 1]))
  }

  ghost function Gone(c: Policy.Config, live: map<Id, Record>, now: int, dryRun: bool, k: nat): set<Id>
    requires Keyed(live) && k <= |Listing(live)|
  {
    if dryRun then {} else IdSet(ExpiredOf(c, Listing(live)[..k], now))
  }

  function Stop(k: nat, limit: nat, size: nat): nat
  {
    if k + limit <= size then k + limit else size
  }

  /** The next page from there is the next stretch of the listing. */
  lemma NextPage(c: Policy.Config, live: map<Id, Record>, now: int, dryRun: bool, k: nat, current: map<Id, Record>, cursor: Option<Record>, limit: nat)
    requires Keyed(live) && limit >= 1 && At(c, live, now, dryRun, k, current, cursor)
    ensures Keyed(current)
    ensures var all := Listing(live);
            var page := ScanPage(current, cursor, limit);
            var n := Stop(k, limit, |all|);
            && page.events == all[k..n] && page.hasMore == (n < |all|)
            && (n > k ==> page.next == Some(all[n - 1]))
  {
    hide Listing, ScanPage, ExpiredOf, IdSet;
    var all := Listing(live);
    var gone := Gone(c, live, now, dryRun, k);
    forall id | id in gone ensures exists i :: 0 <= i < k && all[i].id == id {
      GoneIsBehind(c, all, k, now, id);
    }
    PageContinues(live, gone, k, limit);
  }

  /** Its expired events can be archived and deleted. */
  lemma NextPageLive(c: Policy.Config, live: map<Id, Record>, now: int, dryRun: bool, k: nat, n: nat, current: map<Id, Record>, cursor: Option<Record>)
    requires Keyed(live) && At(c, live, now, dryRun, k, current, cursor) && k <= n <= |Listing(live)|
    ensures var expired := ExpiredOf(c, Listing(live)[k..n], now);
            Sorted(expired) && forall r :: r in expired ==> In(current, r) && Policy.Expired(c, r, now)
  {
    var all := Listing(live);
    var gone := Gone(c, live, now, dryRun, k);
    forall id | id in gone ensures exists i :: 0 <= i < k && all[i].id == id {
      GoneIsBehind(c, all, k, now, id);
    }
    ListingFacts(live);
    PageIsLive(c, live, gone, k, n, now);
    ExpiredOfSorted(c, all[k..n], now);
  }

  /** Deleting them leads to the position after the page. */
  lemma AfterPage(c: Policy.Config, live: map<Id, Record>, now: int, dryRun: bool, k: nat, n: nat, current: map<Id, Record>, cursor: Option<Record>)
    requires Keyed(live) && At(c, live, now, dryRun, k, current, cursor) && k < n <= |Listing(live)|
    ensures var all := Listing(live);
            var expired := ExpiredOf(c, all[k..n], now);
            && ExpiredOf(c, all[..n], now) == ExpiredOf(c, all[..k], now) + expired
            && MatchedIn(c, all[..n]) == MatchedIn(c, all[..k]) + MatchedIn(c, all[k..n])
            && At(c, live, now, dryRun, n, if dryRun then current else current - IdSet(expired), Some(all[n - 1]))
  {
    var all := Listing(live);
    assert all[..n] == all[..k] + all[k..n];
    ExpiredOfConcat(c, all[..k], all[k..n], now);
    IdSetConcat(ExpiredOf(c, all[..k], now), ExpiredOf(c, all[k..n], now));
  }

  /** The counters of a run after its first events. */
  ghost predicate SweptSoFar(c: Policy.Config, first: seq<Record>, now: int, dryRun: bool, r: Swept)
  {
    && r.scanned == |first|
    && r.matched == MatchedIn(c, first)
    && r.eligible == |ExpiredOf(c, first, now)|
    && (!dryRun ==> r.deleted == r.eligible)
  }

  ghost predicate Underway(c: Policy.Config, live: map<Id, Record>, now: int, dryRun: bool, r: Swept, current: map<Id, Record>, cursor: Option<Record>)
    requires Keyed(live)
  {
    && At(c, live, now, dryRun, r.scanned, current, cursor)
    && SweptSoFar(c, Listing(live)[..r.scanned], now, dryRun, r)
  }

  /** Events only disappear from a run because they have expired. */
  ghost predicate OnlyExpiredGone(c: Policy.Config, before: map<Id, Record>, after: map<Id, Record>, now: int)
  {
    && (forall id :: id in after ==> id in before && after[id] == before[id])
    && (forall id :: id in before && id !in after ==> Policy.Expired(c, before[id], now))
  }

  lemma GoneIsExpired(c: Policy.Config, live: map<Id, Record>, now: int, dryRun: bool, k: nat)
    requires Keyed(live) && k <= |Listing(live)|
    ensures OnlyExpiredGone(c, live, live - Gone(c, live, now, dryRun, k), now)
  {
    var expired := ExpiredOf(c, Listing(live)[..k], now);
    ExpiredOfFacts(c, Listing(live)[..k], now);
    ListingFacts(live);
    forall id | id in live && id in Gone(c, live, now, dryRun, k) ensures Policy.Expired(c, live[id], now) {
      var i :| 0 <= i < |expired| && expired[i].id == id;
      assert expired[i] in expired;
      assert expired[i] in Listing(live);
      assert In(live, expired[i]);
    }
  }

  // ---- When a run must succeed ----

  /** Every payload of the record can be copied and verified. */
  ghost predicate Readable(e: Env, active: map<Slot, Content>, r: Record)
  {
    forall i :: 0 <= i < |r.links| ==> Copyable(e, active, r.links[i].ref)
  }

  lemma ReadableRefs(e: Env, active: map<Slot, Content>, rs: seq<Record>, j: nat)
    requires (forall r :: r in rs ==> Readable(e, active, r)) && j < |AllRefs(rs)|
    ensures Copyable(e, active, AllRefs(rs)[j])
  {
    AllRefsSound(rs, j);
  }

  /** Every payload of every expired event can be copied. */
  ghost predicate AllReadable(e: Env, active: map<Slot, Content>, live: map<Id, Record>, now: int)
  {
    forall id :: id in live && Policy.Expired(e.config, live[id], now) ==> Readable(e, active, live[id])
  }

  lemma EligibleReadable(e: Env, active: map<Slot, Content>, live: map<Id, Record>, now: int, dryRun: bool, k: nat, current: map<Id, Record>,
                         cursor: Option<Record>, eligible: seq<Record>)
    requires Keyed(live) && At(e.config, live, now, dryRun, k, current, cursor)
    requires forall r :: r in eligible ==> In(current, r) && Policy.Expired(e.config, r, now)
    ensures AllReadable(e, active, live, now) ==> forall r :: r in eligible ==> Readable(e, active, r)
  {
  }

  /** The coverage check of the page will succeed. */
  ghost predicate Mapped(s: State)
  {
    s.engine.Recorded? && Coverage(s.mapping, s.engine.archive, Ids(s.engine.job.eligible)) == |s.engine.job.eligible|
  }

  // ---- What single steps do to the state ----

  lemma MapCoversInv(e: Env, s: State)
    requires Inv(e, s) && s.engine.Catalogued?
    ensures Enabled(e, s, Map)
    ensures var t := Next(e, s, Map);
            t == s.(mapping := t.mapping, engine := t.engine) && t.engine.Recorded? && t.engine.job == s.engine.job && Mapped(t)
  {
    hide Coverage;
    MapCovers(e, s);
  }

  lemma ScanStep(e: Env, s: State, now: int, eligible: seq<Record>)
    requires s.engine.Idle? && now <= s.clock && eligible != []
    requires forall r :: r in eligible ==> In(s.live, r) && Policy.Expired(e.config, r, now)
    ensures Enabled(e, s, Scan(now, eligible))
    ensures var t := Next(e, s, Scan(now, eligible));
            t == s.(engine := t.engine) && t.engine.Paged? && t.engine.job.eligible == eligible
  {}

  lemma LoadStep(e: Env, s: State, records: seq<Record>)
    requires s.engine.Paged? && (forall r :: r in records ==> In(s.live, r)) && SameIds(Ids(records), Ids(s.engine.job.eligible))
    ensures Enabled(e, s, Load(records)) && Next(e, s, Load(records)) == s.(engine := Loaded(s.engine.job, records))
  {}

  lemma WriteEventsStep(e: Env, s: State)
    requires s.engine.Loaded? && s.engine.records != []
    ensures Enabled(e, s, WriteEvents)
    ensures var t := Next(e, s, WriteEvents); t == s.(vault := t.vault, engine := Writing(s.engine.job, s.engine.records, 0, []))
  {}

  lemma CopyNextStep(e: Env, s: State)
    requires s.engine.Writing? && s.engine.next < |AllRefs(s.engine.records)|
    requires var ref := AllRefs(s.engine.records)[s.engine.next]; Seen(s.engine.entries, SlotOf(ref)) || Copyable(e, s.active, ref)
    ensures Enabled(e, s, CopyNext)
    ensures var t := Next(e, s, CopyNext);
            && t == s.(vault := t.vault, engine := t.engine)
            && t.engine.Writing? && t.engine.job == s.engine.job && t.engine.records == s.engine.records && t.engine.next == s.engine.next + 1
  {
  }

  lemma WriteManifestStep(e: Env, s: State, createdAt: int)
    requires s.engine.Writing? && s.engine.next == |AllRefs(s.engine.records)|
    ensures Enabled(e, s, WriteManifest(createdAt))
    ensures var t := Next(e, s, WriteManifest(createdAt));
            && t == s.(vault := t.vault, engine := t.engine)
            && t.engine.Written? && t.engine.job == s.engine.job && t.engine.records == s.engine.records
  {}

  class Engine {
    const e: Env
    const limits: Limits
    const rank: Slot -> int // how the database orders (store, object_key)
    const reliable: bool    // no call fails and the run is not cancelled
    var s: State
    ghost const origin: State
    ghost var steps: seq<Step>

    ghost predicate Valid()
      reads this
    {
      && CanRun(e, origin, steps) && Reached(e, origin, steps) == s
      && Inv(e, s) && GcInv(e, s) && Policy.Valid(e.config)
      && limits.batchSize >= 1 && limits.payloadBatch >= 1 && limits.concurrency >= 1
    }

    constructor (e: Env, limits: Limits, rank: Slot -> int, reliable: bool, s: State)
      requires Inv(e, s) && GcInv(e, s) && Policy.Valid(e.config)
      requires limits.batchSize >= 1 && limits.payloadBatch >= 1 && limits.concurrency >= 1
      ensures Valid() && this.e == e && this.limits == limits && this.rank == rank && this.reliable == reliable && this.s == s && origin == s && steps == []
    {
      this.e, this.limits, this.rank, this.reliable := e, limits, rank, reliable;
      this.s, this.origin, this.steps := s, s, [];
    }

    /** A call may fail at any time, unless the stores are reliable. */
    method Fault() returns (failed: bool)
      ensures failed ==> !reliable
    {
      var any: bool := *;
      failed := any && !reliable;
    }

    /** A call that reports success took effect; one that reports an error may have. */
    method Call() returns (done: bool, ok: bool)
      ensures (ok ==> done) && (reliable ==> ok)
    {
      var failed := Fault();
      var happened: bool := *;
      ok, done := !failed, !failed || happened;
    }

    /** One effect on the stores. */
    method Do(a: Step)
      requires Valid() && Enabled(e, s, a)
      modifies this
      ensures Valid() && s == Next(e, old(s), a) && old(steps) <= steps
    {
      RunThen(e, origin, steps, a);
      StepKeeps(e, s, a);
      StepKeepsGc(e, s, a);
      s := Next(e, s, a);
      steps := steps + [a];
    }

    /** An error return: the page is given up, what is durable stays. */
    method GiveUp()
      requires Valid()
      modifies this
      ensures Valid() && s == old(s).(engine := Idle) && old(steps) <= steps
    {
      Do(Abort);
    }

    /** Write's loop over the links: each object is copied and verified once. */
    method CopyPayloads() returns (ok: bool)
      requires Valid() && s.engine.Writing? && s.engine.next == 0
      modifies this
      ensures Valid() && old(steps) <= steps && s == old(s).(vault := s.vault, engine := s.engine)
      ensures if ok then s.engine.Writing? && s.engine.job == old(s.engine.job) && s.engine.records == old(s.engine.records)
                         && s.engine.next == |AllRefs(s.engine.records)|
              else s.engine.Idle?
      ensures reliable && (forall r :: r in old(s.engine.records) ==> Readable(e, old(s.active), r)) ==> ok
    {
      hide Inv, GcInv, CanRun, Reached, Enabled, Next, Seen, Copyable;
      while s.engine.next < |AllRefs(s.engine.records)|
        invariant Valid() && old(steps) <= steps && s == old(s).(vault := s.vault, engine := s.engine)
        invariant s.engine.Writing? && s.engine.job == old(s.engine.job) && s.engine.records == old(s.engine.records)
        invariant s.engine.next <= |AllRefs(s.engine.records)|
        decreases |AllRefs(s.engine.records)| - s.engine.next
      {
        var ref := AllRefs(s.engine.records)[s.engine.next];
        if forall r :: r in s.engine.records ==> Readable(e, s.active, r) { ReadableRefs(e, s.active, s.engine.records, s.engine.next); }
        var failed := Fault();
        if failed || !(Seen(s.engine.entries, SlotOf(ref)) || Copyable(e, s.active, ref)) {
          GiveUp();
          return false;
        }
        CopyNextStep(e, s);
        Do(CopyNext);
      }
      ok := true;
    }

    /** BundleWriter.Write: the events, then each payload once, then the manifest. */
    method WriteBundle(createdAt: int) returns (ok: bool)
      requires Valid() && s.engine.Loaded? && s.engine.records != []
      modifies this
      ensures Valid() && old(steps) <= steps && s == old(s).(vault := s.vault, engine := s.engine)
      ensures if ok then s.engine.Written? && s.engine.job == old(s.engine.job) && s.engine.records == old(s.engine.records)
              else s.engine.Idle?
      ensures reliable && (forall r :: r in old(s.engine.records) ==> Readable(e, old(s.active), r)) ==> ok
    {
      hide Inv, GcInv, CanRun, Reached, Enabled, Next;
      var failed := Fault();
      if failed { GiveUp(); return false; }
      WriteEventsStep(e, s);
      Do(WriteEvents);
      ok := CopyPayloads();
      if !ok { return; }
      failed := Fault();
      if failed { GiveUp(); return false; }
      WriteManifestStep(e, s, createdAt);
      Do(WriteManifest(createdAt));
    }

    /** LoadArchiveEvents: rows of the store; those of the page when nothing fails. */
    method LoadArchiveEvents(eligible: seq<Record>) returns (records: seq<Record>, failed: bool)
      requires Distinct(Ids(eligible)) && forall r :: r in eligible ==> In(s.live, r)
      ensures forall r :: r in records ==> In(s.live, r)
      ensures reliable ==> !failed && SameIds(Ids(records), Ids(eligible))
    {
      failed := Fault();
      records := *;
      if !(forall r :: r in records ==> In(s.live, r)) || (reliable && !SameIds(Ids(records), Ids(eligible))) {
        SameAsItself(eligible);
        records := eligible;
      }
    }

    /** Whatever rows come back, in whatever order, the export must name exactly the events
        of the page. */
    method Export(now: int, eligible: seq<Record>) returns (ok: bool)
      requires Valid() && s.engine.Idle? && now <= s.clock && eligible != []
      requires Sorted(eligible) && forall r :: r in eligible ==> In(s.live, r) && Policy.Expired(e.config, r, now)
      modifies this
      ensures Valid() && old(steps) <= steps && s == old(s).(engine := s.engine)
      ensures if ok then s.engine.Loaded? && s.engine.job.eligible == eligible && s.engine.records != []
                         && (forall r :: r in s.engine.records <==> r in eligible)
              else s.engine.Idle?
      ensures reliable ==> ok
    {
      hide Inv, GcInv, CanRun, Reached, Enabled, Next, SameIds;
      ScanStep(e, s, now, eligible);
      Do(Scan(now, eligible));
      SortedDistinct(eligible, s.live);
      var records, failed := LoadArchiveEvents(eligible);
      var same := SameArchiveEvents(HexIds(records), HexIds(eligible));
      SameTextsMeanSameIds(records, eligible);
      if failed || !same { GiveUp(); return false; }
      SameRows(s.live, records, eligible);
      LoadStep(e, s, records);
      Do(Load(records));
      ok := true;
    }

    /** RecordArchive: the catalog entry and the event mapping. */
    method RecordArchive() returns (ok: bool)
      requires Valid() && s.engine.Written?
      modifies this
      ensures Valid() && old(steps) <= steps && s == old(s).(catalog := s.catalog, mapping := s.mapping, engine := s.engine)
      ensures if ok then s.engine.Recorded? && s.engine.job == old(s.engine.job) && Mapped(s) else s.engine.Idle?
      ensures reliable ==> ok
    {
      hide Inv, GcInv, CanRun, Reached;
      var failed := Fault();
      if failed { GiveUp(); return false; }
      Do(Catalog(false));
      failed := Fault();
      if failed { GiveUp(); return false; }
      MapCoversInv(e, s);
      Do(Map);
      failed := Fault();
      if failed { GiveUp(); return false; }
      ok := true;
    }

    /** DeleteRetentionEvents: stage the payloads, check the coverage, delete the events. */
    method DeleteEvents() returns (ok: bool)
      requires Valid() && s.engine.Recorded?
      modifies this
      ensures Valid() && s.engine.Idle? && s.clock == old(s.clock) && s.active == old(s.active) && old(steps) <= steps
      ensures reliable && Mapped(old(s)) ==> ok
      ensures s.live == old(s.live) || s.live == old(s.live) - IdSet(old(s.engine.job.eligible))
      ensures ok ==> s.live == old(s.live) - IdSet(old(s.engine.job.eligible))
    {
      hide Inv, GcInv, CanRun, Reached;
      var failed := Fault();
      if failed { GiveUp(); return false; }
      Do(Stage(false));
      failed := Fault();
      if failed || Coverage(s.mapping, s.engine.archive, Ids(s.engine.job.eligible)) != |s.engine.job.eligible| {
        GiveUp();
        return false;
      }
      Do(Delete);
      failed := Fault();
      ok := !failed;
    }

    /** One page of a run. */
    method ArchiveAndDelete(now: int, eligible: seq<Record>) returns (ok: bool)
      requires Valid() && s.engine.Idle? && now <= s.clock && eligible != []
      requires Sorted(eligible) && forall r :: r in eligible ==> In(s.live, r) && Policy.Expired(e.config, r, now)
      modifies this
      ensures Valid() && s.engine.Idle? && s.clock == old(s.clock) && s.active == old(s.active) && old(steps) <= steps
      ensures reliable && (forall r :: r in eligible ==> Readable(e, s.active, r)) ==> ok
      ensures s.live == old(s.live) || s.live == old(s.live) - IdSet(eligible)
      ensures ok ==> s.live == old(s.live) - IdSet(eligible)
    {
      hide Inv, GcInv, CanRun, Reached;
      ok := Export(now, eligible);
      if !ok { return; }
      ok := WriteBundle(s.clock);
      if !ok { return; }
      ok := RecordArchive();
      if !ok { return; }
      ok := DeleteEvents();
    }

    /** One turn of the scan loop, the page not being empty. */
    method OnePage(dryRun: bool, now: int, ghost live: map<Id, Record>, r: Swept, cursor: Option<Record>, limit: nat, page: Page)
      returns (report: Swept, ok: bool)
      requires Valid() && s.engine.Idle? && s.clock == now && limit >= 1
      requires Keyed(live) && Underway(e.config, live, now, dryRun, r, s.live, cursor)
      requires Keyed(s.live) && page == ScanPage(s.live, cursor, limit) && page.events != []
      modifies this
      ensures Valid() && s.engine.Idle? && s.clock == now && s.active == old(s.active) && old(steps) <= steps
      ensures dryRun ==> steps == old(steps)
      ensures reliable && AllReadable(e, s.active, live, now) ==> ok
      ensures report.scanned == r.scanned + |page.events| <= |Listing(live)|
      ensures page.hasMore == (report.scanned < |Listing(live)|) && report.scanned <= r.scanned + limit
      ensures OnlyExpiredGone(e.config, live, s.live, now)
      ensures ok ==> Underway(e.config, live, now, dryRun, report, s.live, page.next)
    {
      hide Inv, GcInv, CanRun, Reached, Enabled, Next, ScanPage, Listing, ExpiredOf, MatchedIn, Readable, AllReadable, OnlyExpiredGone;
      ghost var k, n := r.scanned, Stop(r.scanned, limit, |Listing(live)|);
      NextPage(e.config, live, now, dryRun, k, s.live, cursor, limit);
      NextPageLive(e.config, live, now, dryRun, k, n, s.live, cursor);
      AfterPage(e.config, live, now, dryRun, k, n, s.live, cursor);
      GoneIsExpired(e.config, live, now, dryRun, k);
      GoneIsExpired(e.config, live, now, dryRun, n);
      var eligible, times, matched := Classify(e.config, page.events, now);
      EligibleReadable(e, s.active, live, now, dryRun, k, s.live, cursor, eligible);
      report := r.(scanned := r.scanned + |page.events|, matched := r.matched + matched, eligible := r.eligible + |eligible|);
      ok := true;
      if eligible != [] && !dryRun {
        ok := ArchiveAndDelete(now, eligible);
        if !ok { return report.(errors := report.errors + 1), false; }
        report := report.(deleted := report.deleted + |eligible|);
      } else if !dryRun {
        assert IdSet(eligible) == {};
      }
    }

    /** One turn of the scan loop. */
    method Turn(dryRun: bool, now: int, ghost live: map<Id, Record>, r: Swept, at: Option<Record>)
      returns (report: Swept, cursor: Option<Record>, last: bool, ok: bool)
      requires Valid() && s.engine.Idle? && s.clock == now && r.scanned < limits.maxEvents
      requires Keyed(live) && Underway(e.config, live, now, dryRun, r, s.live, at)
      modifies this
      ensures Valid() && s.engine.Idle? && s.clock == now && s.active == old(s.active) && old(steps) <= steps
      ensures dryRun ==> steps == old(steps)
      ensures reliable && AllReadable(e, s.active, live, now) ==> ok
      ensures OnlyExpiredGone(e.config, live, s.live, now)
      ensures ok ==> Underway(e.config, live, now, dryRun, report, s.live, cursor)
      ensures ok ==> r.scanned <= report.scanned <= limits.maxEvents
      ensures ok ==> if last then report.scanned == |Listing(live)| else r.scanned < report.scanned
    {
      hide Inv, GcInv, CanRun, Reached, ScanPage, Listing, ExpiredOf, MatchedIn, OnlyExpiredGone;
      var remain := limits.maxEvents - r.scanned;
      var limit := if limits.batchSize > remain then remain else limits.batchSize;
      NextPage(e.config, live, now, dryRun, r.scanned, s.live, at, limit);
      GoneIsExpired(e.config, live, now, dryRun, r.scanned);
      report, cursor, last, ok := r, at, true, true;
      var failed := Fault();
      if failed { return report.(errors := report.errors + 1), cursor, last, false; }
      var page := ScanPage(s.live, at, limit);
      if page.events != [] {
        report, ok := OnePage(dryRun, now, live, r, at, limit, page);
        cursor, last := page.next, !page.hasMore;
      }
    }

    /** The scan loop of Run. */
    method Sweep(dryRun: bool) returns (report: Swept, ok: bool)
      requires Valid() && s.engine.Idle?
      modifies this
      ensures Valid() && s.engine.Idle? && s.clock == old(s.clock) && s.active == old(s.active) && old(steps) <= steps
      ensures dryRun ==> steps == old(steps)
      ensures reliable && AllReadable(e, s.active, old(s.live), s.clock) ==> ok
      ensures Keyed(old(s.live)) && OnlyExpiredGone(e.config, old(s.live), s.live, old(s.clock))
      ensures ok ==> var first := FirstEvents(old(s.live), limits.maxEvents);
                     && SweptSoFar(e.config, first, old(s.clock), dryRun, report)
                     && (!dryRun ==> s.live == old(s.live) - IdSet(ExpiredOf(e.config, first, old(s.clock))))
    {
      hide Inv, GcInv, CanRun, Reached, Keyed, Listing, ExpiredOf, Underway, SweptSoFar, OnlyExpiredGone, FirstEvents, IdSet;
      var now := s.clock;
      ghost var live := s.live;
      KeyedLive(e, s);
      report := Swept(0, 0, 0, 0, 0);
      StartsEmpty(e.config, live, now, dryRun, report);
      var cursor: Option<Record> := None;
      var cancelled := Fault();
      var last := false;
      while report.scanned < limits.maxEvents && !cancelled && !last
        invariant Valid() && s.engine.Idle? && s.clock == now && s.active == old(s.active) && old(steps) <= steps
        invariant reliable ==> !cancelled
        invariant dryRun ==> steps == old(steps)
        invariant OnlyExpiredGone(e.config, live, s.live, now)
        invariant Underway(e.config, live, now, dryRun, report, s.live, cursor) && report.scanned <= limits.maxEvents
        invariant last ==> report.scanned == |Listing(live)|
        decreases limits.maxEvents - report.scanned, !last
      {
        report, cursor, last, ok := Turn(dryRun, now, live, report, cursor);
        if !ok { return; }
        cancelled := Fault();
      }
      ok := !cancelled;
      if ok { SweepEnds(e.config, live, now, dryRun, report, s.live, cursor, limits.maxEvents); }
    }

    // ---- Payload collection ----

    /** The first of some rows in the order of the query. */
    method FirstRow(rows: set<Slot>) returns (first: Slot)
      requires rows != {} && rows <= s.candidates.Keys
      ensures first in rows && forall x :: x in rows ==> !RowBefore(rank, s.candidates[x], s.candidates[first])
    {
      first :| first in rows;
      var rest := rows - {first};
      while rest != {}
        invariant rest <= rows && first in rows
        invariant forall x :: x in rows && x !in rest ==> !RowBefore(rank, s.candidates[x], s.candidates[first])
        decreases rest
      {
        var x :| x in rest;
        if RowBefore(rank, s.candidates[x], s.candidates[first]) { first := x; }
        rest := rest - {x};
      }
    }

    /** ListPayloadCandidates: the first rows that are ready, up to limit. */
    method ListReady(now: int, limit: nat) returns (listed: seq<Candidate>)
      requires Valid() && now <= s.clock && limit >= 1
      ensures Listable(e, s, now, listed) && |listed| <= limit
      ensures forall i, j :: 0 <= i < j < |listed| ==> !RowBefore(rank, listed[j], listed[i])
      ensures forall slot :: slot in s.candidates && Ready(e, s.clock, now, s.candidates[slot]) && s.candidates[slot] !in listed ==>
                |listed| == limit && forall i :: 0 <= i < |listed| ==> !RowBefore(rank, s.candidates[slot], listed[i])
    {
      hide Inv, GcInv, CanRun, Reached, RowBefore, Ready;
      var ready := set slot | slot in s.candidates && Ready(e, s.clock, now, s.candidates[slot]);
      RowsOf(e, s);
      listed := [];
      while |listed| < limit && ready != {}
        invariant |listed| <= limit && Picking(e, s, rank, now, ready, listed)
        decreases ready
      {
        hide Picking;
        PickingRows(e, s, rank, now, ready, listed);
        var slot := FirstRow(ready);
        PickOne(e, s, rank, now, ready, listed, slot);
        listed := listed + [s.candidates[slot]];
        ready := ready - {slot};
      }
    }

    /** The scheduler's choice among the candidates that can move. */
    method PickMove(pool: Pool, workers: nat) returns (i: nat)
      requires workers >= 1 && !AllCounted(pool)
      ensures CanMove(pool, workers, i)
    {
      ghost var some := SomeMove(pool, workers);
      i :| 0 <= i < |pool.pcs| && CanMove(pool, workers, i);
    }

    /** One step of one worker: its store call, if it makes one, or its count. */
    method MoveOne(listed: seq<Candidate>, pool: Pool, i: nat, ghost r: Collected) returns (moved: Pool)
      requires Valid() && PoolInv(e, s, listed, pool, reliable) && i < |listed| && !pool.pcs[i].Counted?
      requires Tallying(e, s.engine.verdict, listed, pool, r, reliable)
      modifies this
      ensures Valid() && old(steps) <= steps && PoolInv(e, s, listed, moved, reliable) && Touched(old(s), s, SlotOf(listed[i].ref))
      ensures Tallying(e, s.engine.verdict, listed, moved, r, reliable) && Weights(moved.pcs) < Weights(pool.pcs)
    {
      hide Inv, GcInv, CanRun, Reached, Enabled, Next, Stands, Effect, MovePc, Uncounted, Count, PcOk, Weights, DistinctSlots;
      var done, ok := Call();
      var effect := Effect(e, s.engine.verdict, listed[i], pool.pcs[i]);
      moved := Advance(e, s.engine.verdict, listed, pool, i, ok);
      PoolMove(e, s, listed, pool, i, done, ok, reliable);
      TallyMove(e, s.engine.verdict, listed, pool, i, ok, r, reliable);
      MoveLowersWeight(e, s.engine.verdict, listed, pool, i, ok);
      if effect.Some? && done { Do(effect.value); }
    }

    /** One page of candidates: look up which are referenced, then let the workers move in
        any interleaving.  The counts depend on the page, not on the interleaving. */
    method CollectPage(now: int, listed: seq<Candidate>, r: Collected) returns (report: Collected, ok: bool)
      requires Valid() && s.engine.Idle? && now <= s.clock && listed != [] && Listable(e, s, now, listed)
      modifies this
      ensures Valid() && s.engine.Idle? && s.live == old(s.live) && s.clock == old(s.clock) && old(steps) <= steps
      ensures (report == r && !ok && !reliable)
              || (var verdict := Verdicts(old(s.live), listed);
                  && Tallied(e, verdict, listed, r, report, !ok, reliable)
                  && forall i :: 0 <= i < |listed| ==> Settled(e, verdict, s, listed[i], reliable))
    {
      hide Inv, GcInv, CanRun, Reached, Next, Enabled, Tallying, PcOk, Settled, Tallied, Weights, CanMove, Deletions, Errors;
      var failed: bool := StartLookup(now, listed, r);
      if failed { return r, false; }
      ghost var verdict := s.engine.verdict;
      TallyStarts(e, verdict, listed, r, reliable);
      var pool := NewPool(|listed|, r);
      var workers := if limits.concurrency > |listed| then |listed| else limits.concurrency;
      while !AllCounted(pool)
        invariant Valid() && old(steps) <= steps && s.live == old(s.live) && s.clock == old(s.clock)
        invariant PoolInv(e, s, listed, pool, reliable) && s.engine.verdict == verdict
        invariant Tallying(e, verdict, listed, pool, r, reliable)
        decreases Weights(pool.pcs)
      {
        var i := PickMove(pool, workers);
        PickedMoves(pool, workers, i);
        pool := MoveOne(listed, pool, i, r);
      }
      TallyEnds(e, verdict, listed, pool, r, reliable);
      report, ok := pool.report, !pool.failed;
      ghost var last := s;
      GiveUp();
      forall i | 0 <= i < |listed| ensures Settled(e, verdict, s, listed[i], reliable) { StaysSettled(e, last, listed[i], pool.pcs[i], reliable); }
    }

    /** ReferencedPayloads for the page. */
    method StartLookup(now: int, listed: seq<Candidate>, ghost r: Collected) returns (failed: bool)
      requires Valid() && s.engine.Idle? && now <= s.clock && Listable(e, s, now, listed)
      modifies this
      ensures Valid() && old(steps) <= steps && s == old(s).(engine := s.engine)
      ensures failed ==> !reliable
      ensures if failed then s.engine.Idle? else s.engine.Collecting? && s.engine.verdict == Verdicts(s.live, listed)
      ensures !failed ==> PoolInv(e, s, listed, NewPool(|listed|, r), reliable)
    {
      hide Inv, GcInv, CanRun, Reached;
      Do(List(now, listed));
      failed := Fault();
      if failed { GiveUp(); return; }
      Do(Lookup);
    }

    /** collectPayloads: pages of ready candidates until none are left, one fails, or
        MaxPayloads have been handled. */
    method CollectPayloads(now: int, r: Collected) returns (report: Collected, ok: bool)
      requires Valid() && s.engine.Idle? && now <= s.clock
      modifies this
      ensures Valid() && s.engine.Idle? && s.live == old(s.live) && s.clock == old(s.clock) && old(steps) <= steps
      ensures Handled(r) <= Handled(report) <= Handled(r) + limits.maxPayloads && Deletions(r, report, reliable)
      ensures ok ==> report.unknown == r.unknown && report.removed - r.removed == report.orphaned - r.orphaned
    {
      hide Inv, GcInv, CanRun, Reached, Enabled, Next, Kind, Verdicts, Count, Listable, Archived, Ready, Settled, AllBytes, RowBefore;
      report, ok := r, true;
      var remaining := limits.maxPayloads;
      var cancelled := Fault();
      while remaining > 0 && !cancelled
        invariant Valid() && s.engine.Idle? && s.live == old(s.live) && s.clock == old(s.clock) && old(steps) <= steps
        invariant 0 <= remaining <= limits.maxPayloads && Handled(r) <= Handled(report) <= Handled(r) + (limits.maxPayloads - remaining)
        invariant Deletions(r, report, reliable)
        invariant report.unknown == r.unknown && report.removed - r.removed == report.orphaned - r.orphaned
        invariant ok
        decreases remaining
      {
        var limit := if limits.payloadBatch > remaining then remaining else limits.payloadBatch;
        var failed := Fault();
        if failed { return report, false; }
        var listed := ListReady(now, limit);
        var kept := KeepArchived(listed);
        AllArchived(e, s, now, listed);
        if kept == [] { return; }
        report, ok := CollectPage(now, kept, report);
        remaining := remaining - |kept|;
        if !ok || |kept| < limit { return; }
        cancelled := Fault();
      }
      ok := !cancelled;
    }

    /** Engine.Run. A run whose scan completes, and it does when no call fails and the
        payloads of the expired events are there, has deleted exactly the expired among the first
        MaxEvents events in (time, id) order, whatever the page size; a dry run changes
        nothing and counts the same; and any run only ever takes protocol steps and only
        ever deletes expired events. */
    method Run(dryRun: bool) returns (report: Swept, payloads: Collected, swept: bool, ok: bool)
      requires Valid() && s.engine.Idle?
      modifies this
      ensures Valid() && s.engine.Idle? && old(steps) <= steps
      ensures dryRun ==> s == old(s) && steps == old(steps)
      ensures Keyed(old(s.live)) && OnlyExpiredGone(e.config, old(s.live), s.live, old(s.clock))
      ensures (ok ==> swept) && (reliable && AllReadable(e, old(s.active), old(s.live), old(s.clock)) ==> swept)
      ensures swept ==>
                     var first := FirstEvents(old(s.live), limits.maxEvents);
                     var expired := ExpiredOf(e.config, first, old(s.clock));
                     && report.scanned == |first| && report.matched == MatchedIn(e.config, first) && report.eligible == |expired|
                     && (!dryRun ==> report.deleted == |expired| && s.live == old(s.live) - IdSet(expired))
      ensures Handled(payloads) <= limits.maxPayloads && payloads.removed <= payloads.orphaned
      ensures payloads.errors == payloads.unknown + (payloads.orphaned - payloads.removed)
      ensures reliable || ok ==> payloads.removed == payloads.orphaned
    {
      hide Inv, GcInv, CanRun, Reached, OnlyExpiredGone, FirstEvents, IdSet, ExpiredOf, MatchedIn;
      var failed := Fault();
      report, payloads := Swept(0, 0, 0, 0, 1), Collected(0, 0, 0, 0, 0, 0);
      if !dryRun && failed {
        KeyedLive(e, s);
        NothingGone(e.config, s.live, s.clock);
        return report, payloads, false, false;
      }
      var now := s.clock;
      report, swept := Sweep(dryRun);
      ok := swept;
      if !swept || dryRun { return; }
      payloads, ok := CollectPayloads(now, payloads);
    }
  }

  /** ORDER BY candidate_at, store, object_key */
  predicate RowBefore(rank: Slot -> int, c: Candidate, d: Candidate)
  {
    c.candidateAt < d.candidateAt || (c.candidateAt == d.candidateAt && rank(SlotOf(c.ref)) < rank(SlotOf(d.ref)))
  }

  /** Where the listing stands: the rows listed come before those still ready. */
  ghost predicate Picking(e: Env, s: State, rank: Slot -> int, now: int, ready: set<Slot>, listed: seq<Candidate>)
  {
    && RowsInv(s) && Listable(e, s, now, listed)
    && (forall slot :: slot in ready ==> slot in s.candidates && Ready(e, s.clock, now, s.candidates[slot]))
    && (forall i :: 0 <= i < |listed| ==> SlotOf(listed[i].ref) !in ready)
    && (forall i, j :: 0 <= i < j < |listed| ==> !RowBefore(rank, listed[j], listed[i]))
    && (forall slot, i :: slot in ready && 0 <= i < |listed| ==> !RowBefore(rank, s.candidates[slot], listed[i]))
    && (forall slot :: slot in s.candidates && Ready(e, s.clock, now, s.candidates[slot]) ==> slot in ready || s.candidates[slot] in listed)
  }

  lemma PickingRows(e: Env, s: State, rank: Slot -> int, now: int, ready: set<Slot>, listed: seq<Candidate>)
    requires Picking(e, s, rank, now, ready, listed)
    ensures ready <= s.candidates.Keys
  {
  }

  lemma PickOne(e: Env, s: State, rank: Slot -> int, now: int, ready: set<Slot>, listed: seq<Candidate>, first: Slot)
    requires Picking(e, s, rank, now, ready, listed) && ready <= s.candidates.Keys && first in ready
    requires forall x :: x in ready ==> !RowBefore(rank, s.candidates[x], s.candidates[first])
    ensures Picking(e, s, rank, now, ready - {first}, listed + [s.candidates[first]])
  {
    hide RowBefore, Ready;
  }

  lemma RowsOf(e: Env, s: State)
    requires GcInv(e, s)
    ensures RowsInv(s)
  {
  }

  lemma PickedMoves(pool: Pool, workers: nat, i: nat)
    requires CanMove(pool, workers, i)
    ensures i < |pool.pcs| && !pool.pcs[i].Counted?
  {
  }

  lemma StaysSettled(e: Env, s: State, c: Candidate, pc: Pc, all: bool)
    requires s.engine.Collecting? && pc.Counted? && Stands(e, s, c, pc, all)
    ensures Settled(e, s.engine.verdict, s.(engine := Idle), c, all)
  {
  }

  /** Candidates handled on pages whose lookup succeeded. */
  function Handled(r: Collected): nat
  {
    r.referenced + r.orphaned + r.unknown
  }

  lemma KeyedLive(e: Env, s: State)
    requires Inv(e, s)
    ensures Keyed(s.live)
  {
  }

  lemma NothingGone(c: Policy.Config, live: map<Id, Record>, now: int)
    ensures OnlyExpiredGone(c, live, live, now)
  {
  }

  // ---- The in-place filter ----

  function Archived(cs: seq<Candidate>): seq<Candidate>
  {
    if cs == [] then []
    else Archived(cs[..|cs| - 1]) + (if cs[|cs| - 1].archive.Some? then [cs[|cs| - 1]] else [])
  }

  /** Moves the candidates that have an archive to the front, in order, reusing the
      page's own backing array. */
  method FilterArchived(a: array<Candidate>) returns (k: nat)
    modifies a
    ensures k <= a.Length && a[..k] == Archived(old(a[..]))
  {
    k := 0;
    ghost var all := a[..];
    for i := 0 to a.Length
      invariant k <= i && a[..k] == Archived(all[..i])
      invariant forall j :: i <= j < a.Length ==> a[j] == all[j]
    {
      assert all[..i + 1][..i] == all[..i];
      if a[i].archive.Some? {
        a[k] := a[i];
        k := k + 1;
      }
    }
    assert all[..a.Length] == all;
  }

  method KeepArchived(listed: seq<Candidate>) returns (kept: seq<Candidate>)
    ensures kept == Archived(listed)
  {
    var a := new Candidate[|listed|](i requires 0 <= i < |listed| => listed[i]);
    assert a[..] == listed;
    var k := FilterArchived(a);
    kept := a[..k];
  }

  /** The listing query already asks for an archive, so the filter keeps the page. */
  lemma {:induction false} AllArchived(e: Env, s: State, now: int, listed: seq<Candidate>)
    requires Listable(e, s, now, listed)
    ensures Archived(listed) == listed
  {
    if listed != [] { AllArchived(e, s, now, listed[..|listed| - 1]); }
  }

  /** At the end of the table, or of the budget, the first events have been dealt with. */
  lemma SweepEnds(c: Policy.Config, live: map<Id, Record>, now: int, dryRun: bool, r: Swept, current: map<Id, Record>, cursor: Option<Record>, maxEvents: nat)
    requires Keyed(live) && Underway(c, live, now, dryRun, r, current, cursor)
    requires r.scanned <= maxEvents && (r.scanned == |Listing(live)| || r.scanned == maxEvents)
    ensures SweptSoFar(c, FirstEvents(live, maxEvents), now, dryRun, r)
    ensures !dryRun ==> current == live - IdSet(ExpiredOf(c, FirstEvents(live, maxEvents), now))
  {
    assert Listing(live)[..r.scanned] == FirstEvents(live, maxEvents);
  }

  lemma StartsEmpty(c: Policy.Config, live: map<Id, Record>, now: int, dryRun: bool, r: Swept)
    requires Keyed(live) && r == Swept(0, 0, 0, 0, 0)
    ensures Underway(c, live, now, dryRun, r, live, None) && OnlyExpiredGone(c, live, live, now)
  {
  }
}
