/** Stored objects: event records, payload references, archive manifests and the
    content-addressed payload store.  JSON and gzip are inverse pairs, so documents
    are kept as the values they encode; SHA-256 is an injective function. */
module Objects {
  import opened Common

  /** Event identifiers are 128-bit values. */
  type Id = n: nat | n < 0x1_0000_0000_0000_0000_0000_0000_0000_0000

  /** Timestamps are int64 Unix nanoseconds. */
  type Nanos = t: int | -0x8000_0000_0000_0000 <= t < 0x8000_0000_0000_0000

  /** Go's zero time, the first instant of year 1. */
  const ZERO_TIME: int := -62_135_596_800 * 1_000_000_000

  datatype Compression = Plain | Gzip | Unsupported(name: string)

  /** Logical or stored bytes of an object. */
  datatype Content =
    | Blob(bytes: seq<nat>)
    | Gzipped(inner: Content)
    | EventsDoc(records: seq<Record>)
    | ManifestDoc(manifest: Manifest)

  /** A checksum: the zero value, or the checksum of some content. */
  datatype Digest = Zero | Sum(of: Content)

  /** Keys written by Put are prefix + checksum + optional ".gz"; events may name others. */
  datatype Key = Addressed(prefix: string, sum: Digest, gz: bool) | Foreign(name: string)

  datatype Ref = Ref(
    store: string, key: Key, contentType: string, size: int, storedSize: int, sum: Digest,
    compression: Compression, retainUntil: Option<Nanos>, retentionClass: string)

  datatype Link = Link(role: string, ref: Ref)

  datatype Level = Debug | Info | Warn | Error

  /** A stored event; rest stands for the columns retention does not look at. */
  datatype Record = Record(
    id: Id, time: Nanos, kind: string, service: string, environment: string, level: Level,
    flowStatus: string, executionStatus: string, httpStatus: int, httpSuccess: bool,
    retentionClass: string, links: seq<Link>, rest: string)

  datatype PayloadEntry = PayloadEntry(source: Ref, archive: Ref)

  datatype Manifest = Manifest(id: Digest, createdAt: int, eventIDs: seq<Id>, events: Ref, payloads: seq<PayloadEntry>)

  datatype Receipt = Receipt(manifest: Manifest, manifestRef: Ref)

  /** The object a reference names: store and key. */
  datatype Slot = Slot(store: string, key: Key)

  function SlotOf(r: Ref): Slot
  {
    Slot(r.store, r.key)
  }

  const EMPTY_KEY := Foreign("")

  /** A stand-in for the number of logical bytes. */
  function SizeOf(c: Content): nat
  {
    match c
    case Blob(bytes) => |bytes|
    case Gzipped(inner) => SizeOf(inner)
    case EventsDoc(records) => |records|
    case ManifestDoc(manifest) => |manifest.eventIDs|
  }

  // ---- Payload stores ----

  type ObjectMap = map<Key, Content>

  function Pack(c: Content, gz: bool): Content
  {
    if gz then Gzipped(c) else c
  }

  /** Reading through a gzip reader fails on anything that is not gzip. */
  function Unpack(c: Content, compression: Compression): Option<Content>
  {
    if !compression.Gzip? then Some(c)
    else if c.Gzipped? then Some(c.inner)
    else None
  }

  function KeyFor(prefix: string, c: Content, compression: Compression): Key
  {
    Addressed(prefix, Sum(c), compression.Gzip?)
  }

  function RefFor(store: string, prefix: string, c: Content, contentType: string, compression: Compression,
                  retainUntil: Option<Nanos>, retentionClass: string): Ref
  {
    Ref(store, KeyFor(prefix, c, compression), contentType, SizeOf(c), SizeOf(c), Sum(c), compression, retainUntil, retentionClass)
  }

  /** Put stores under the checksum of the logical bytes. */
  function Put(objects: ObjectMap, prefix: string, c: Content, compression: Compression): ObjectMap
  {
    objects[KeyFor(prefix, c, compression) := Pack(c, compression.Gzip?)]
  }

  /** Every key of an archive store tells what is stored under it. */
  predicate ContentAddressed(objects: ObjectMap)
  {
    forall k :: k in objects ==> k.Addressed? && k.sum.Sum? && objects[k] == Pack(k.sum.of, k.gz)
  }

  /** Putting into a content-addressed store overwrites nothing. */
  lemma PutOnlyAdds(objects: ObjectMap, prefix: string, c: Content, compression: Compression)
    requires ContentAddressed(objects)
    ensures ContentAddressed(Put(objects, prefix, c, compression))
    ensures forall k :: k in objects ==> k in Put(objects, prefix, c, compression) && Put(objects, prefix, c, compression)[k] == objects[k]
    ensures Unpack(Put(objects, prefix, c, compression)[KeyFor(prefix, c, compression)], compression) == Some(c)
  {
  }

  // ---- Records ----

  function Ids(rs: seq<Record>): seq<Id>
  {
    seq(|rs|, i requires 0 <= i < |rs| => rs[i].id)
  }

  predicate Distinct(ids: seq<Id>)
  {
    forall i, j :: 0 <= i < j < |ids| ==> ids[i] != ids[j]
  }

  function LinkRefs(links: seq<Link>): seq<Ref>
  {
    seq(|links|, i requires 0 <= i < |links| => links[i].ref)
  }

  /** All references of a batch of records, in the order Write visits them. */
  function AllRefs(rs: seq<Record>): seq<Ref>
  {
    if rs == [] then [] else LinkRefs(rs[0].links) + AllRefs(rs[1..])
  }

  lemma {:induction false} AllRefsComplete(rs: seq<Record>, r: Record, link: Link)
    requires r in rs && link in r.links
    ensures link.ref in AllRefs(rs)
  {
    if r == rs[0] {
      var i :| 0 <= i < |r.links| && r.links[i] == link;
      assert LinkRefs(r.links)[i] == link.ref;
    } else {
      AllRefsComplete(rs[1..], r, link);
    }
  }

  lemma {:induction false} AllRefsSound(rs: seq<Record>, j: nat)
    requires j < |AllRefs(rs)|
    ensures exists r, i :: r in rs && 0 <= i < |r.links| && r.links[i].ref == AllRefs(rs)[j]
  {
    var n := |rs[0].links|;
    if j < n {
      assert rs[0].links[j].ref == AllRefs(rs)[j];
    } else {
      AllRefsSound(rs[1..], j - n);
      var r, i :| r in rs[1..] && 0 <= i < |r.links| && r.links[i].ref == AllRefs(rs[1..])[j - n];
      assert r in rs;
    }
  }
}
