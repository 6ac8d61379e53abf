/** The ingestor: decode fetched messages, group them within the configured bounds, write
    each group in one transaction that inserts absent events, acknowledge after the write,
    and dead-letter what cannot be decoded or is delivered too often.  Any call may fail,
    with or without its effect, and any message may be delivered again. */
module Ingestor {
  import opened Common
  import opened Objects

  // ---- Messages ----

  /** An event without its delivery metadata; core stands for every other column. */
  datatype Event = Event(id: Id, core: string)

  /** What wire.Unmarshal and Normalize make of the bytes. */
  datatype Body = Batch(events: seq<Event>) | Malformed(bytes: seq<nat>)

  datatype Message = Message(number: nat, body: Body, size: nat)

  /** One delivery of a message; metadata is None when it cannot be read. */
  datatype Delivery = Delivery(message: Message, attempt: Option<nat>)

  datatype Stored = Stored(core: string, attempt: nat)

  datatype Config = Config(maxEvents: nat, maxBytes: nat, maxDeliveries: nat)

  /** New: settings that are not positive select the defaults. */
  function Normalized(maxEvents: int, maxBytes: int, maxDeliveries: nat): (c: Config)
    ensures c.maxEvents >= 1 && c.maxBytes >= 1 && c.maxDeliveries >= 1
  {
    Config(if maxEvents <= 0 then 4096 else maxEvents,
           if maxBytes <= 0 then 8 * 1024 * 1024 else maxBytes,
           if maxDeliveries == 0 then 5 else maxDeliveries)
  }

  predicate Decodable(c: Config, d: Delivery)
  {
    d.attempt.Some? && d.message.size <= c.maxBytes && d.message.body.Batch?
  }

  /** A decoded message. */
  datatype Pending = Pending(message: Message, events: seq<Event>, attempt: nat)

  function PendingOf(c: Config, d: Delivery): Pending
    requires Decodable(c, d)
  {
    Pending(d.message, d.message.body.events, d.attempt.value)
  }

  function Decoded(c: Config, ds: seq<Delivery>): seq<Pending>
  {
    if ds == [] then []
    else Decoded(c, ds[..|ds| - 1]) + (if Decodable(c, ds[|ds| - 1]) then [PendingOf(c, ds[|ds| - 1])] else [])
  }

  // ---- Groups ----

  function Events(group: seq<Pending>): nat
  {
    if group == [] then 0 else Events(group[..|group| - 1]) + |group[|group| - 1].events|
  }

  function Bytes(group: seq<Pending>): nat
  {
    if group == [] then 0 else Bytes(group[..|group| - 1]) + group[|group| - 1].message.size
  }

  predicate Fits(c: Config, group: seq<Pending>, item: Pending)
  {
    Events(group) + |item.events| <= c.maxEvents && Bytes(group) + item.message.size <= c.maxBytes
  }

  /** The groups handed to write, given the group collected so far. */
  function Groups(c: Config, group: seq<Pending>, items: seq<Pending>): seq<seq<Pending>>
    decreases |items|
  {
    if items == [] then (if group == [] then [] else [group])
    else if group != [] && !Fits(c, group, items[0]) then [group] + Groups(c, [items[0]], items[1..])
    else Groups(c, group + [items[0]], items[1..])
  }

  function Concat(groups: seq<seq<Pending>>): seq<Pending>
  {
    if groups == [] then [] else groups[0] + Concat(groups[1..])
  }

  /** A group was collected one message at a time, each fitting what was there. */
  ghost predicate Grown(c: Config, group: seq<Pending>)
  {
    group != [] && forall k :: 1 <= k < |group| ==> Fits(c, group[..k], group[k])
  }

  /** A group was closed because the next message did not fit. */
  ghost predicate Closed(c: Config, groups: seq<seq<Pending>>)
  {
    forall i, j :: 0 <= i && j == i + 1 < |groups| ==> groups[j] != [] && !Fits(c, groups[i], groups[j][0])
  }

  lemma {:induction false} GroupsConcat(c: Config, group: seq<Pending>, items: seq<Pending>)
    ensures Concat(Groups(c, group, items)) == group + items
    decreases |items|
  {
    if items == [] {
      if group != [] { assert [group][1..] == []; }
    } else {
      var rest := items[1..];
      assert items == [items[0]] + rest;
      if group != [] && !Fits(c, group, items[0]) {
        GroupsConcat(c, [items[0]], rest);
        var tail := Groups(c, [items[0]], rest);
        assert ([group] + tail)[1..] == tail;
      } else {
        GroupsConcat(c, group + [items[0]], rest);
      }
    }
  }

  lemma GrownMore(c: Config, group: seq<Pending>, item: Pending)
    requires group == [] || (Grown(c, group) && Fits(c, group, item))
    ensures Grown(c, group + [item])
  {
    var g := group + [item];
    forall k | 1 <= k < |g| ensures Fits(c, g[..k], g[k]) {
      if k < |group| { assert g[..k] == group[..k] && g[k] == group[k]; } else { assert g[..k] == group; }
    }
  }

  lemma {:induction false} GroupsShape(c: Config, group: seq<Pending>, items: seq<Pending>)
    requires group == [] || Grown(c, group)
    ensures var gs := Groups(c, group, items);
            && Closed(c, gs) && (forall i :: 0 <= i < |gs| ==> Grown(c, gs[i]))
            && (group != [] ==> gs != [] && group <= gs[0])
            && (group == [] && items != [] ==> gs != [] && [items[0]] <= gs[0])
    decreases |items|
  {
    if items != [] {
      if group != [] && !Fits(c, group, items[0]) {
        GroupsShape(c, [items[0]], items[1..]);
      } else {
        GrownMore(c, group, items[0]);
        GroupsShape(c, group + [items[0]], items[1..]);
      }
    }
  }

  lemma {:induction false} BytesBound(c: Config, group: seq<Pending>)
    requires Grown(c, group) && group[0].message.size <= c.maxBytes
    ensures Bytes(group) <= c.maxBytes
    ensures |group| >= 2 ==> Events(group) <= c.maxEvents
  {
  }

  lemma {:induction false} DecodedSmall(c: Config, ds: seq<Delivery>, item: Pending)
    requires item in Decoded(c, ds)
    ensures item.message.size <= c.maxBytes
  {
    var n := |ds| - 1;
    if !(Decodable(c, ds[n]) && item == PendingOf(c, ds[n])) { DecodedSmall(c, ds[..n], item); }
  }

  lemma {:induction false} ConcatHas(groups: seq<seq<Pending>>, i: nat, item: Pending)
    requires i < |groups| && item in groups[i]
    ensures item in Concat(groups)
  {
    if i > 0 { ConcatHas(groups[1..], i - 1, item); }
  }

  /** Grouping: the groups concatenate to the decoded messages in order, none is empty,
      all are within MaxBytes, those of two or more messages are within MaxEvents, and
      each but the last was closed because the next message would exceed a bound. */
  lemma GroupingIsBounded(c: Config, ds: seq<Delivery>)
    ensures var items := Decoded(c, ds); var gs := Groups(c, [], items);
            && Concat(gs) == items && Closed(c, gs)
            && forall i :: 0 <= i < |gs| ==> gs[i] != [] && Bytes(gs[i]) <= c.maxBytes && (|gs[i]| >= 2 ==> Events(gs[i]) <= c.maxEvents)
  {
    var items := Decoded(c, ds);
    var gs := Groups(c, [], items);
    GroupsConcat(c, [], items);
    GroupsShape(c, [], items);
    forall i | 0 <= i < |gs| ensures gs[i] != [] && Bytes(gs[i]) <= c.maxBytes && (|gs[i]| >= 2 ==> Events(gs[i]) <= c.maxEvents) {
      ConcatHas(gs, i, gs[i][0]);
      DecodedSmall(c, ds, gs[i][0]);
      BytesBound(c, gs[i]);
    }
  }

  lemma FullGroup(c: Config, gs: seq<seq<Pending>>, items: seq<Pending>)
    requires gs != [] && Concat(gs) == gs[0] + items && Closed(c, gs) && forall i :: 0 <= i < |gs| ==> Grown(c, gs[i])
    ensures Concat(gs[1..]) == items && Closed(c, gs[1..]) && forall i :: 0 <= i < |gs[1..]| ==> Grown(c, gs[1..][i])
    ensures if items == [] then |gs| == 1 else |gs| > 1 && [items[0]] <= gs[1] && !Fits(c, gs[0], items[0])
  {
    hide Fits;
    var tail := gs[1..];
    assert forall i :: 0 <= i < |tail| ==> tail[i] == gs[i + 1];
    assert Concat(tail) == items by {
      assert (gs[0] + items)[|gs[0]|..] == items && (gs[0] + Concat(tail))[|gs[0]|..] == Concat(tail);
    }
    if tail != [] {
      assert Grown(c, gs[1]) && Concat(tail) == gs[1] + Concat(tail[1..]);
    }
  }

  lemma PartGroup(c: Config, group: seq<Pending>, gs: seq<seq<Pending>>, items: seq<Pending>)
    requires gs != [] && Concat(gs) == group + items && group <= gs[0] && group != gs[0] && Grown(c, gs[0])
    ensures items != [] && group + [items[0]] <= gs[0] && group + items == (group + [items[0]]) + items[1..]
    ensures group != [] ==> Fits(c, group, items[0])
  {
    hide Fits;
    var k, first := |group|, gs[0];
    assert Concat(gs) == first + Concat(gs[1..]);
    assert first[..k] == group;
    assert (first + Concat(gs[1..]))[k] == first[k] && (group + items)[k] == items[0];
    assert group != [] ==> Fits(c, first[..k], first[k]);
  }

  /** And no other grouping does that. */
  lemma {:induction false} GroupingIsUnique(c: Config, group: seq<Pending>, items: seq<Pending>, gs: seq<seq<Pending>>)
    requires Concat(gs) == group + items && Closed(c, gs) && forall i :: 0 <= i < |gs| ==> Grown(c, gs[i])
    requires group == [] || (gs != [] && group <= gs[0])
    ensures gs == Groups(c, group, items)
    decreases |items|
  {
    hide Fits, Grown, Closed, Concat;
    if gs == [] {
      assert items == [] by { NoGroups(group, items); }
    } else if group == gs[0] {
      FullGroup(c, gs, items);
      assert group != [] by { assert Grown(c, gs[0]); GrownSome(c, gs[0]); }
      if items != [] {
        assert [items[0]] + items[1..] == items;
        GroupingIsUnique(c, [items[0]], items[1..], gs[1..]);
        assert gs == [gs[0]] + gs[1..];
      }
    } else {
      PartGroup(c, group, gs, items);
      GroupingIsUnique(c, group + [items[0]], items[1..], gs);
    }
  }

  lemma NoGroups(group: seq<Pending>, items: seq<Pending>)
    requires Concat([]) == group + items
    ensures group == [] && items == []
  {
  }

  lemma GrownSome(c: Config, group: seq<Pending>)
    requires Grown(c, group)
    ensures group != []
  {
  }

  // ---- The store ----

  /** One transaction: INSERT ... ON CONFLICT (event_id) DO NOTHING for each event. */
  function InsertBatch(store: map<Id, Stored>, events: seq<Event>, attempt: nat): map<Id, Stored>
    decreases |events|
  {
    if events == [] then store
    else InsertBatch(if events[0].id in store then store else store[events[0].id := Stored(events[0].core, attempt)], events[1..], attempt)
  }

  function InsertGroup(store: map<Id, Stored>, group: seq<Pending>): map<Id, Stored>
    decreases |group|
  {
    if group == [] then store else InsertGroup(InsertBatch(store, group[0].events, group[0].attempt), group[1..])
  }

  /** Some message holds this event. */
  ghost predicate Holds(m: Message, id: Id, core: string)
  {
    m.body.Batch? && exists i :: 0 <= i < |m.body.events| && m.body.events[i] == Event(id, core)
  }

  ghost predicate StoredFrom(store: map<Id, Stored>, written: set<Message>)
  {
    forall id :: id in store ==> exists m :: m in written && Holds(m, id, store[id].core)
  }

  ghost predicate InStore(store: map<Id, Stored>, m: Message)
  {
    m.body.Batch? ==> forall i :: 0 <= i < |m.body.events| ==> m.body.events[i].id in store
  }

  ghost predicate AllInStore(store: map<Id, Stored>, written: set<Message>)
  {
    forall m :: m in written ==> m.body.Batch? && InStore(store, m)
  }

  lemma {:induction false} BatchInserted(store: map<Id, Stored>, events: seq<Event>, attempt: nat)
    ensures var after := InsertBatch(store, events, attempt);
            && (forall id :: id in store ==> id in after && after[id] == store[id])
            && (forall i :: 0 <= i < |events| ==> events[i].id in after)
            && (forall id :: id in after && id !in store ==> Event(id, after[id].core) in events)
    decreases |events|
  {
    if events != [] {
      BatchInserted(if events[0].id in store then store else store[events[0].id := Stored(events[0].core, attempt)], events[1..], attempt);
    }
  }

  ghost function Messages(group: seq<Pending>): set<Message>
  {
    set i | 0 <= i < |group| :: group[i].message
  }

  ghost predicate Faithful(p: Pending)
  {
    p.message.body.Batch? && p.events == p.message.body.events
  }

  lemma InsertOneKeeps(store: map<Id, Stored>, written: set<Message>, p: Pending)
    requires StoredFrom(store, written) && AllInStore(store, written) && Faithful(p)
    ensures var after := InsertBatch(store, p.events, p.attempt);
            StoredFrom(after, written + {p.message}) && AllInStore(after, written + {p.message})
  {
    BatchInserted(store, p.events, p.attempt);
    var after, more := InsertBatch(store, p.events, p.attempt), written + {p.message};
    forall id | id in after ensures exists m :: m in more && Holds(m, id, after[id].core) {
      if id in store {
        var m :| m in written && Holds(m, id, store[id].core);
        assert m in more;
      } else {
        assert Holds(p.message, id, after[id].core);
      }
    }
    forall m | m in more ensures m.body.Batch? && InStore(after, m) {
      if m in written { assert InStore(store, m); }
    }
  }

  lemma {:induction false} InsertKeeps(store: map<Id, Stored>, written: set<Message>, group: seq<Pending>)
    requires StoredFrom(store, written) && AllInStore(store, written) && forall p :: p in group ==> Faithful(p)
    ensures StoredFrom(InsertGroup(store, group), written + Messages(group))
    ensures AllInStore(InsertGroup(store, group), written + Messages(group))
    decreases |group|
  {
    hide StoredFrom, AllInStore, Faithful;
    if group == [] {
      assert written + Messages(group) == written;
    } else {
      var rest := group[1..];
      InsertOneKeeps(store, written, group[0]);
      InsertKeeps(InsertBatch(store, group[0].events, group[0].attempt), written + {group[0].message}, rest);
      assert Messages(group) == {group[0].message} + Messages(rest) by {
        assert forall i :: 0 <= i < |rest| ==> rest[i] == group[i + 1];
        forall m | m in Messages(group) ensures m in {group[0].message} + Messages(rest) {
          var i :| 0 <= i < |group| && group[i].message == m;
          assert i > 0 ==> rest[i - 1].message == m;
        }
      }
      assert written + Messages(group) == (written + {group[0].message}) + Messages(rest);
    }
  }

  // ---- What the store amounts to ----

  /** Copies of an event agree on everything but delivery metadata. */
  ghost predicate Consistent(written: set<Message>)
  {
    forall m, n, id, a, b :: m in written && n in written && Holds(m, id, a) && Holds(n, id, b) ==> a == b
  }

  /** Modulo delivery metadata the store is each written message's events once, if and
      only if the written messages never disagree about an event. */
  lemma StoreIsUnion(store: map<Id, Stored>, written: set<Message>)
    requires StoredFrom(store, written) && AllInStore(store, written)
    ensures Consistent(written)
            <==> forall m, id, core :: m in written && Holds(m, id, core) ==> id in store && store[id].core == core
  {
    if Consistent(written) {
      forall m, id, core | m in written && Holds(m, id, core) ensures id in store && store[id].core == core {
        assert InStore(store, m);
        var i :| 0 <= i < |m.body.events| && m.body.events[i] == Event(id, core);
        var n :| n in written && Holds(n, id, store[id].core);
      }
    }
  }

  function Cores(store: map<Id, Stored>): map<Id, string>
  {
    map id | id in store :: store[id].core
  }

  /** So two histories that wrote the same messages, in whatever order, grouping and
      number of deliveries, have stored the same events. */
  lemma SameMessagesSameStore(a: map<Id, Stored>, b: map<Id, Stored>, written: set<Message>)
    requires StoredFrom(a, written) && AllInStore(a, written) && StoredFrom(b, written) && AllInStore(b, written) && Consistent(written)
    ensures Cores(a) == Cores(b)
  {
    StoreIsUnion(a, written);
    StoreIsUnion(b, written);
    forall id | id in a ensures id in b && a[id].core == b[id].core {
      var m :| m in written && Holds(m, id, a[id].core);
    }
    forall id | id in b ensures id in a && a[id].core == b[id].core {
      var m :| m in written && Holds(m, id, b[id].core);
    }
  }

  // ---- The engine ----

  class Engine {
    const c: Config
    const reliable: bool // every call takes effect and reports success
    var store: map<Id, Stored>
    var acked: set<nat>
    var dlq: set<Body>
    ghost var written: set<Message>
    ghost var groups: seq<seq<Pending>>
    ghost const stream: map<nat, Message>

    /** An acknowledged message was written or is in the dead-letter queue. */
    ghost predicate Valid()
      reads this
    {
      && StoredFrom(store, written) && AllInStore(store, written)
      && forall n :: n in acked ==> n in stream && (stream[n] in written || stream[n].body in dlq)
    }

    ghost predicate OnStream(m: Message)
      reads this
    {
      m.number in stream && stream[m.number] == m
    }

    constructor (c: Config, reliable: bool, ghost stream: map<nat, Message>)
      ensures Valid() && this.c == c && this.reliable == reliable && this.stream == stream
      ensures store == map[] && acked == {} && dlq == {} && written == {} && groups == []
    {
      this.c, this.reliable, this.stream := c, reliable, stream;
      store, acked, dlq, written, groups := map[], {}, {}, {}, [];
    }

    /** Durable things only grow. */
    twostate predicate Grew()
      reads this
    {
      && old(acked) <= acked && old(dlq) <= dlq && old(written) <= written
      && (forall id :: id in old(store) ==> id in store && store[id] == old(store[id]))
    }

    /** One call: it may take effect and still report an error. */
    method Call() returns (done: bool, reported: bool)
      ensures reported ==> done
      ensures reliable ==> reported
    {
      done, reported := *, *;
      reported := reported || reliable;
      done := done || reported;
    }

    /** deadLetter: acknowledged only after the bytes are in the dead-letter queue. */
    method DeadLetter(m: Message)
      requires Valid() && OnStream(m)
      modifies this`acked, this`dlq
      ensures Valid() && Grew()
      ensures acked <= old(acked) + {m.number} && dlq <= old(dlq) + {m.body}
      ensures m.number in acked && m.number !in old(acked) ==> m.body in dlq
      ensures reliable ==> m.number in acked && m.body in dlq
    {
      var published, ok := Call();
      if published { dlq := dlq + {m.body}; }
      if !ok { return; }
      var done, _ := Call();
      if done { acked := acked + {m.number}; }
    }

    /** write: the group in one transaction, then one acknowledgement per message. */
    method Write(group: seq<Pending>) returns (ok: bool)
      requires Valid() && forall p :: p in group ==> Faithful(p) && OnStream(p.message)
      modifies this
      ensures Valid() && Grew() && dlq == old(dlq) && groups == old(groups) + [group]
      ensures (store == old(store) && written == old(written) && !ok)
              || (store == InsertGroup(old(store), group) && written == old(written) + Messages(group))
      ensures !ok ==> acked == old(acked)
      ensures reliable ==> ok && Settled(group)
    {
      hide StoredFrom, AllInStore, InsertGroup, Faithful;
      groups := groups + [group];
      var committed;
      committed, ok := Call();
      if committed {
        InsertKeeps(store, written, group);
        InsertGrows(store, group);
        store, written := InsertGroup(store, group), written + Messages(group);
      }
      if ok { Acknowledge(group); }
    }

    /** One DoubleAck per message; an error says nothing about whether it took effect. */
    method Acknowledge(group: seq<Pending>)
      requires Valid() && forall p :: p in group ==> OnStream(p.message) && p.message in written
      modifies this`acked
      ensures Valid() && old(acked) <= acked
      ensures reliable ==> Settled(group)
    {
      hide StoredFrom, AllInStore;
      for i := 0 to |group|
        invariant Valid() && old(acked) <= acked
        invariant reliable ==> forall j :: 0 <= j < i ==> group[j].message.number in acked
      {
        assert group[i] in group;
        var done, _ := Call();
        if done { acked := acked + {group[i].message.number}; }
      }
    }

    /** reject: dead-letter what was delivered too often, leave the rest for redelivery. */
    method Reject(group: seq<Pending>)
      requires Valid() && forall p :: p in group ==> OnStream(p.message)
      modifies this`acked, this`dlq
      ensures Valid() && Grew()
      ensures forall n :: n in acked && n !in old(acked) ==> Overdue(group, n)
      ensures reliable ==> forall p :: p in group && p.attempt >= c.maxDeliveries ==> p.message.number in acked && p.message.body in dlq
    {
      hide StoredFrom, AllInStore;
      for i := 0 to |group|
        invariant Valid() && Grew()
        invariant forall n :: n in acked && n !in old(acked) ==> Overdue(group, n)
        invariant reliable ==> forall j :: 0 <= j < i && group[j].attempt >= c.maxDeliveries ==>
                                 group[j].message.number in acked && group[j].message.body in dlq
      {
        assert group[i] in group;
        if group[i].attempt >= c.maxDeliveries {
          assert Overdue(group, group[i].message.number);
          DeadLetter(group[i].message);
        }
      }
    }

    ghost predicate Overdue(group: seq<Pending>, n: nat)
      reads this
    {
      exists p :: p in group && p.message.number == n && p.attempt >= c.maxDeliveries
    }

    method Flush(group: seq<Pending>)
      requires Valid() && forall p :: p in group ==> Faithful(p) && OnStream(p.message)
      modifies this
      ensures Valid() && Grew() && groups == old(groups) + [group] && written <= old(written) + Messages(group)
      ensures reliable ==> Settled(group)
    {
      var ok := Write(group);
      if !ok { Reject(group); }
    }

    /** One turn of the message loop: dead-letter, or close the group and start another,
        or add to the group. */
    method Accept(d: Delivery, g: seq<Pending>, events: nat, bytes: nat)
      returns (group: seq<Pending>, events': nat, bytes': nat)
      requires Valid() && OnStream(d.message) && Collected(g, events, bytes)
      modifies this
      ensures Valid() && Grew() && Collected(group, events', bytes')
      ensures !Decodable(c, d) ==> group == g && groups == old(groups) && (reliable ==> Handled(d))
      ensures Decodable(c, d) ==>
        var item := PendingOf(c, d);
        if g != [] && !Fits(c, g, item) then group == [item] && groups == old(groups) + [g] && (reliable ==> Settled(g))
        else group == g + [item] && groups == old(groups)
    {
      hide StoredFrom, AllInStore, Events, Bytes;
      group, events', bytes' := g, events, bytes;
      if !Decodable(c, d) {
        DeadLetter(d.message);
        return;
      }
      var item := PendingOf(c, d);
      if group != [] && (events + |item.events| > c.maxEvents || bytes + item.message.size > c.maxBytes) {
        Flush(group);
        group, events', bytes' := [], 0, 0;
        NothingCollected();
      }
      CollectedMore(group, item);
      group, events', bytes' := group + [item], events' + |item.events|, bytes' + item.message.size;
    }

    /** The message is acknowledged, as written or as dead-lettered. */
    ghost predicate Handled(d: Delivery)
      reads this
    {
      d.message.number in acked && (if Decodable(c, d) then d.message in written else d.message.body in dlq)
    }

    /** One fetch: whatever fails, exactly the greedy groups of the decoded messages are
        handed to write; and if nothing fails every message is handled. */
    method Fetch(ds: seq<Delivery>)
      requires Valid() && forall d :: d in ds ==> OnStream(d.message)
      modifies this
      ensures Valid() && Grew() && groups == old(groups) + Groups(c, [], Decoded(c, ds))
      ensures reliable ==> forall d :: d in ds ==> Handled(d)
    {
      hide StoredFrom, AllInStore, Events, Bytes, Fits, Groups, Decoded, Faithful;
      var group: seq<Pending>, events: nat, bytes: nat := [], 0, 0;
      ghost var closed: seq<seq<Pending>> := [];
      NothingCollected();
      NoItems(c, ds);
      for i := 0 to |ds|
        invariant Valid() && Grew() && Collected(group, events, bytes)
        invariant groups == old(groups) + closed && (group == [] ==> closed == [])
        invariant Groups(c, [], Decoded(c, ds[..i])) == closed + Last(group)
        invariant reliable ==> forall j :: 0 <= j < i ==> Handled(ds[j]) || (Decodable(c, ds[j]) && PendingOf(c, ds[j]) in group)
      {
        assert ds[i] in ds;
        DecodedMore(c, ds, i);
        if Decodable(c, ds[i]) {
          GroupsStep(c, Decoded(c, ds[..i]), closed, group, PendingOf(c, ds[i]));
          if group != [] && !Fits(c, group, PendingOf(c, ds[i])) { closed := closed + [group]; }
        }
        group, events, bytes := Accept(ds[i], group, events, bytes);
      }
      assert ds[..|ds|] == ds;
      if group != [] { Flush(group); }
    }

    /** Run: fetch until cancelled or the consumer fails. */
    method Run(fetches: seq<seq<Delivery>>)
      requires Valid() && forall i, d :: 0 <= i < |fetches| && d in fetches[i] ==> OnStream(d.message)
      modifies this
      ensures Valid() && Grew()
      ensures reliable ==> forall i, d :: 0 <= i < |fetches| && d in fetches[i] ==> Handled(d)
    {
      hide StoredFrom, AllInStore, Groups, Decoded;
      var i := 0;
      var ok := true;
      while i < |fetches| && ok
        invariant 0 <= i <= |fetches| && Valid() && Grew() && (reliable ==> ok)
        invariant reliable ==> forall j, d :: 0 <= j < i && d in fetches[j] ==> Handled(d)
        decreases |fetches| - i
      {
        Fetch(fetches[i]);
        i := i + 1;
        var _, reported := Call();
        ok := reported;
      }
    }

    ghost predicate Collected(g: seq<Pending>, events: nat, bytes: nat)
      reads this
    {
      events == Events(g) && bytes == Bytes(g) && forall p :: p in g ==> Faithful(p) && OnStream(p.message)
    }

    ghost predicate Settled(g: seq<Pending>)
      reads this
    {
      forall p :: p in g ==> p.message in written && p.message.number in acked
    }
  }

  function Last(group: seq<Pending>): seq<seq<Pending>>
  {
    if group == [] then [] else [group]
  }

  lemma NoItems(c: Config, ds: seq<Delivery>)
    ensures Groups(c, [], Decoded(c, ds[..0])) == []
  {
  }

  lemma GroupsStep(c: Config, items: seq<Pending>, closed: seq<seq<Pending>>, group: seq<Pending>, item: Pending)
    requires Groups(c, [], items) == closed + Last(group) && (group == [] ==> closed == [])
    ensures Groups(c, [], items + [item])
         == if group != [] && !Fits(c, group, item) then closed + [group] + [[item]] else closed + [group + [item]]
  {
    GroupsSnoc(c, [], items, item);
    if group == [] {
      assert group + [item] == [item];
    } else {
      var gs := closed + [group];
      assert gs[..|gs| - 1] == closed && gs[|gs| - 1] == group;
    }
  }

  lemma DecodedMore(c: Config, ds: seq<Delivery>, i: nat)
    requires i < |ds|
    ensures Decoded(c, ds[..i + 1]) == if Decodable(c, ds[i]) then Decoded(c, ds[..i]) + [PendingOf(c, ds[i])] else Decoded(c, ds[..i])
  {
    assert ds[..i + 1][..i] == ds[..i];
  }

  /** One more message extends the last group or starts a new one. */
  lemma {:induction false} GroupsSnoc(c: Config, g: seq<Pending>, items: seq<Pending>, item: Pending)
    ensures var gs := Groups(c, g, items);
            Groups(c, g, items + [item])
            == if gs == [] then [[item]]
               else if gs[|gs| - 1] == [] || Fits(c, gs[|gs| - 1], item) then gs[..|gs| - 1] + [gs[|gs| - 1] + [item]]
               else gs + [[item]]
    decreases |items|
  {
    if items == [] {
      assert items + [item] == [item] && [item][1..] == [];
    } else {
      assert (items + [item])[1..] == items[1..] + [item];
      if g != [] && !Fits(c, g, items[0]) {
        GroupsSnoc(c, [items[0]], items[1..], item);
        GroupsSome(c, [items[0]], items[1..]);
        var tail := Groups(c, [items[0]], items[1..]);
        var n := |tail| - 1;
        assert ([g] + tail)[..n + 1] == [g] + tail[..n];
      } else {
        GroupsSnoc(c, g + [items[0]], items[1..], item);
      }
    }
  }

  lemma {:induction false} GroupsSome(c: Config, g: seq<Pending>, items: seq<Pending>)
    requires g != []
    ensures Groups(c, g, items) != []
    decreases |items|
  {
    if items != [] && Fits(c, g, items[0]) { GroupsSome(c, g + [items[0]], items[1..]); }
  }

  lemma NothingCollected()
    ensures Events([]) == 0 && Bytes([]) == 0
  {
  }

  lemma CollectedMore(g: seq<Pending>, item: Pending)
    ensures Events(g + [item]) == Events(g) + |item.events| && Bytes(g + [item]) == Bytes(g) + item.message.size
  {
  }

  lemma {:induction false} InsertGrows(store: map<Id, Stored>, group: seq<Pending>)
    ensures forall id :: id in store ==> id in InsertGroup(store, group) && InsertGroup(store, group)[id] == store[id]
    decreases |group|
  {
    if group != [] {
      BatchInserted(store, group[0].events, group[0].attempt);
      InsertGrows(InsertBatch(store, group[0].events, group[0].attempt), group[1..]);
    }
  }
}
