/** Normalisation: a valid envelope becomes stored records, and the dotted payload fields
    of an event are reassembled into the references they came from. */
module Normalize {
  import opened Common
  import opened IdCodec
  import opened Fields
  import opened Wire

  /** A record; columns holds the fields that have a column of their own. */
  datatype EventRecord = EventRecord(
    ids: Ids, time: Int64, kind: string, level: nat, attempt: nat, source: string, place: Place,
    fields: seq<WireField>, columns: map<string, WireField>, hasError: bool, payloads: seq<PayloadLink>)

  const COLUMNS: set<string> := {
    "trail.flow.status", "trail.execution.status", "trail.execution.kind", "trail.retention.class", "provider",
    "http.method", "http.scheme", "http.host", "http.path", "http.status_code", "http.duration", "http.success",
    "http.request_size", "http.response_size", "http.request_preview", "http.response_preview"}

  // ---- Identifiers and level ----

  function ParseLevel(text: string): nat
  {
    if text == "debug" then 0 else if text == "warn" then 2 else if text == "error" then 3 else 1
  }

  ghost function ParseText(text: string): RawId
  {
    if text != "" && Decode(text).Ok? then Decode(text).value else ZeroId()
  }

  ghost function ParseTexts(t: IdTexts): Ids
  {
    Ids(ParseText(t.event), ParseText(t.flow), ParseText(t.execution), ParseText(t.parentExecution), ParseText(t.retryOf), ParseText(t.parent))
  }

  method ParseId(text: string) returns (id: RawId)
    ensures id == ParseText(text)
  {
    if text == "" { return ZeroId(); }
    var r := DecodeId(text);
    id := if r.Ok? then r.value else ZeroId();
  }

  method ParseIds(t: IdTexts) returns (ids: Ids)
    ensures ids == ParseTexts(t)
  {
    hide ParseText;
    var event := ParseId(t.event);
    var flow := ParseId(t.flow);
    var execution := ParseId(t.execution);
    var parentExecution := ParseId(t.parentExecution);
    var retryOf := ParseId(t.retryOf);
    var parent := ParseId(t.parent);
    ids := Ids(event, flow, execution, parentExecution, retryOf, parent);
  }

  lemma IdRoundTrip(id: RawId)
    ensures ParseText(Encode(id)) == id && ParseText(OptionalText(id)) == id
  {
    hide Encode, Decode;
    DecodeEncode(id);
    EncodeSome(id);
  }

  lemma IdsRoundTrip(ids: Ids)
    ensures ParseTexts(ToTexts(ids)) == ids
  {
    hide Encode, ParseText, OptionalText;
    forall id: RawId ensures ParseText(Encode(id)) == id && ParseText(OptionalText(id)) == id { IdRoundTrip(id); }
  }

  lemma LevelRoundTrip(level: nat)
    requires level < 4
    ensures ParseLevel(LevelText(level)) == level
  {
  }

  // ---- Ordering roles ----

  /** Go's string order. */
  predicate Less(a: string, b: string)
  {
    b != "" && (a == "" || a[0] < b[0] || (a[0] == b[0] && Less(a[1..], b[1..])))
  }

  lemma {:induction false} LessTotal(a: string, b: string)
    ensures !(Less(a, b) && Less(b, a))
    ensures Less(a, b) || Less(b, a) || a == b
    ensures !Less(a, a)
  {
    if a != "" { LessTotal(a[1..], a[1..]); }
    if a != "" && b != "" {
      LessTotal(a[1..], b[1..]);
      assert a == [a[0]] + a[1..] && b == [b[0]] + b[1..];
    }
  }

  lemma {:induction false} LessTransitive(a: string, b: string, c: string)
    requires Less(a, b) && Less(b, c)
    ensures Less(a, c)
  {
    if a != "" && a[0] == b[0] && b[0] == c[0] { LessTransitive(a[1..], b[1..], c[1..]); }
  }

  predicate IsLeast(role: string, roles: set<string>)
  {
    role in roles && forall q :: q in roles ==> q == role || Less(role, q)
  }

  lemma {:induction false} LeastExists(roles: set<string>)
    requires roles != {}
    ensures exists role :: IsLeast(role, roles)
  {
    var r :| r in roles;
    var rest := roles - {r};
    if rest == {} {
      forall q | q in roles ensures q == r { assert q == r || q in rest; }
      assert IsLeast(r, roles);
    } else {
      LeastExists(rest);
      var m :| IsLeast(m, rest);
      LessTotal(m, r);
      if Less(m, r) {
        assert IsLeast(m, roles);
      } else {
        forall q | q in roles ensures q == r || Less(r, q) {
          if q != r && q != m { LessTransitive(r, m, q); }
        }
        assert IsLeast(r, roles);
      }
    }
  }

  ghost predicate Ascending(roles: seq<string>)
  {
    forall i, j :: 0 <= i < j < |roles| ==> Less(roles[i], roles[j])
  }

  /** sort.Strings on the roles. */
  method SortRoles(roles: set<string>) returns (sorted: seq<string>)
    ensures Ascending(sorted) && forall r :: r in sorted <==> r in roles
  {
    sorted := [];
    var todo := roles;
    while todo != {}
      invariant Ascending(sorted) && forall r :: r in roles <==> r in todo || r in sorted
      invariant forall i, r :: 0 <= i < |sorted| && r in todo ==> Less(sorted[i], r)
      decreases todo
    {
      LeastExists(todo);
      var role :| role in todo && IsLeast(role, todo);
      ghost var before := sorted;
      sorted := sorted + [role];
      todo := todo - {role};
      forall i, r | 0 <= i < |sorted| && r in todo ensures Less(sorted[i], r) {
        assert i < |before| ==> sorted[i] == before[i];
      }
    }
  }

  // ---- The listed links ----

  /** A link is listed if it names an object or records an error. */
  predicate Named(link: PayloadLink)
  {
    link.ref.store != "" || link.ref.key != "" || link.error != ""
  }

  ghost function Roles(payloads: seq<PayloadLink>): seq<string>
  {
    seq(|payloads|, i requires 0 <= i < |payloads| => payloads[i].role)
  }

  /** The named links, one per role, in role order. */
  ghost predicate IsListing(links: map<string, PayloadLink>, payloads: seq<PayloadLink>)
  {
    && Ascending(Roles(payloads))
    && forall link :: link in payloads <==> link.role in links && links[link.role] == link && Named(link)
  }

  ghost predicate RolesMatch(links: map<string, PayloadLink>)
  {
    forall role :: role in links ==> links[role].role == role
  }

  lemma ApplyKeepsRole(link: PayloadLink, name: string, w: WireField)
    ensures Apply(link, name, w).role == link.role
  {
  }

  lemma {:induction false} ApplyAllRoles(fields: seq<WireField>)
    ensures RolesMatch(ApplyAll(fields))
  {
    hide Apply, SplitKey;
    if fields != [] {
      var n := |fields| - 1;
      ApplyAllRoles(fields[..n]);
      forall link, name, w ensures Apply(link, name, w).role == link.role { ApplyKeepsRole(link, name, w); }
    }
  }

  lemma AscendingMore(payloads: seq<PayloadLink>, link: PayloadLink)
    requires Ascending(Roles(payloads)) && forall j :: 0 <= j < |payloads| ==> Less(payloads[j].role, link.role)
    ensures Ascending(Roles(payloads + [link]))
  {
    var more := Roles(payloads + [link]);
    forall i, j | 0 <= i < j < |more| ensures Less(more[i], more[j]) {
      assert j < |payloads| ==> Less(Roles(payloads)[i], Roles(payloads)[j]);
    }
  }

  method ListLinks(links: map<string, PayloadLink>) returns (payloads: seq<PayloadLink>)
    requires RolesMatch(links)
    ensures IsListing(links, payloads)
  {
    var roles := SortRoles(links.Keys);
    payloads := [];
    for i := 0 to |roles|
      invariant Ascending(Roles(payloads))
      invariant forall link :: link in payloads <==> link.role in roles[..i] && links[link.role] == link && Named(link)
      invariant forall j :: 0 <= j < |payloads| ==> payloads[j].role in roles[..i]
    {
      var link := links[roles[i]];
      assert roles[..i + 1] == roles[..i] + [roles[i]];
      assert roles[i] !in roles[..i] by { forall j | 0 <= j < i ensures roles[j] != roles[i] { LessTotal(roles[j], roles[i]); } }
      if Named(link) {
        forall j | 0 <= j < |payloads| ensures Less(payloads[j].role, link.role) {
          assert payloads[j].role in roles[..i];
          var k :| 0 <= k < i && roles[k] == payloads[j].role;
          assert Less(roles[k], roles[i]);
        }
        AscendingMore(payloads, link);
        payloads := payloads + [link];
      }
    }
    assert roles[..|roles|] == roles;
  }

  // ---- normalizeEvent ----

  ghost function ColumnsOf(fields: seq<WireField>): map<string, WireField>
  {
    if fields == [] then map[]
    else
      var last := fields[|fields| - 1];
      if last.key in COLUMNS then ColumnsOf(fields[..|fields| - 1])[last.key := last] else ColumnsOf(fields[..|fields| - 1])
  }

  /** A column takes the last field of its key. */
  lemma {:induction false} ColumnIsLast(fields: seq<WireField>, i: nat)
    requires i < |fields| && fields[i].key in COLUMNS && forall j :: i < j < |fields| ==> fields[j].key != fields[i].key
    ensures fields[i].key in ColumnsOf(fields) && ColumnsOf(fields)[fields[i].key] == fields[i]
  {
    var n := |fields| - 1;
    if i < n { ColumnIsLast(fields[..n], i); }
  }

  ghost predicate ErrorIn(fields: seq<WireField>)
  {
    exists i :: 0 <= i < |fields| && fields[i].key !in COLUMNS && fields[i].name == "error"
  }

  lemma ColumnsArePlain(key: string)
    requires key in COLUMNS
    ensures SplitKey(key).None?
  {
    assert PREFIX[0] == 'p' && PREFIX[1] == 'a';
    assert key != "" && (key[0] != 'p' || (|key| > 1 && key[1] != 'a'));
  }

  /** What normalizeEvent makes of a wire event. */
  ghost predicate Normalized(w: WireEvent, r: EventRecord)
  {
    && r.ids == ParseTexts(w.ids) && r.time == w.time && r.kind == w.kind && r.level == ParseLevel(w.level)
    && r.attempt == w.attempt && r.source == w.source && r.place == w.place && r.fields == w.fields
    && r.columns == ColumnsOf(w.fields) && r.hasError == ErrorIn(w.fields)
    && IsListing(ApplyAll(w.fields), r.payloads)
  }

  method NormalizeEvent(w: WireEvent) returns (r: EventRecord)
    ensures Normalized(w, r)
  {
    hide SplitKey, Apply, ParseTexts, IsListing;
    var ids := ParseIds(w.ids);
    var columns: map<string, WireField>, hasError: bool, links: map<string, PayloadLink> := map[], false, map[];
    for i := 0 to |w.fields|
      invariant columns == ColumnsOf(w.fields[..i]) && hasError == ErrorIn(w.fields[..i]) && links == ApplyAll(w.fields[..i])
    {
      var f := w.fields[i];
      ghost var now := w.fields[..i + 1];
      assert now[..i] == w.fields[..i] && now[i] == f;
      ErrorMore(w.fields, i);
      if f.key in COLUMNS {
        ColumnsArePlain(f.key);
        columns := columns[f.key := f];
      } else {
        if f.name == "error" { hasError := true; }
        links := ApplyField(links, f);
      }
    }
    assert w.fields[..|w.fields|] == w.fields;
    ApplyAllRoles(w.fields);
    var payloads := ListLinks(links);
    r := EventRecord(ids, w.time, w.kind, ParseLevel(w.level), w.attempt, w.source, w.place, w.fields, columns, hasError, payloads);
  }

  lemma ErrorMore(fields: seq<WireField>, i: nat)
    requires i < |fields|
    ensures ErrorIn(fields[..i + 1]) <==> ErrorIn(fields[..i]) || (fields[i].key !in COLUMNS && fields[i].name == "error")
  {
  }

  /** Normalize: all events of a valid envelope, or an error. */
  method NormalizeEnvelope(v: Envelope) returns (r: Result<seq<EventRecord>>)
    ensures r.Ok? <==> ValidEnvelope(v)
    ensures r.Ok? ==> |r.value| == |v.events| && forall i :: 0 <= i < |v.events| ==> Normalized(v.events[i], r.value[i])
  {
    hide ValidEnvelope, Normalized;
    var ok := Check(v);
    if !ok { return Err("invalid envelope"); }
    var records: seq<EventRecord> := [];
    for i := 0 to |v.events|
      invariant |records| == i && forall j :: 0 <= j < i ==> Normalized(v.events[j], records[j])
    {
      var record := NormalizeEvent(v.events[i]);
      records := records + [record];
    }
    return Ok(records);
  }

  // ---- The round trip ----

  /** The event carries the fields of these attachments, each under its role and in its
      own order, mixed in any way with each other and with fields of no role. */
  ghost predicate Carries(fields: seq<WireField>, attached: map<string, Attachment>)
  {
    && (forall role :: role in attached ==> role != "" && DotFree(role) && OfRole(fields, role) == AllToWire(Attached(attached[role], role)))
    && (forall i :: 0 <= i < |fields| && RoleOf(fields[i]).Some? ==> RoleOf(fields[i]).value in attached)
  }

  // ---- Laying attachments out one after another ----

  lemma {:induction false} OfRoleConcat(a: seq<WireField>, b: seq<WireField>, role: string)
    ensures OfRole(a + b, role) == OfRole(a, role) + OfRole(b, role)
  {
    if b == [] {
      assert a + b == a;
    } else {
      var n := |b| - 1;
      OfRoleConcat(a, b[..n], role);
      assert (a + b)[..|a + b| - 1] == a + b[..n];
    }
  }

  lemma {:induction false} OfRoleAll(fields: seq<WireField>, role: string, r: string)
    requires forall i :: 0 <= i < |fields| ==> RoleOf(fields[i]) == Some(r)
    ensures OfRole(fields, role) == if role == r then fields else []
  {
    hide RoleOf;
    if fields != [] {
      var n := |fields| - 1;
      OfRoleAll(fields[..n], role, r);
      assert fields == fields[..n] + [fields[n]];
    }
  }

  /** The fields of the attachments, role after role. */
  ghost function LaidOut(roles: seq<string>, attached: map<string, Attachment>): seq<WireField>
    requires forall i :: 0 <= i < |roles| ==> roles[i] in attached
  {
    if roles == [] then []
    else
      var n := |roles| - 1;
      LaidOut(roles[..n], attached) + AllToWire(Attached(attached[roles[n]], roles[n]))
  }

  ghost predicate Usable(roles: seq<string>, attached: map<string, Attachment>)
  {
    && (forall i :: 0 <= i < |roles| ==> roles[i] in attached && roles[i] != "" && DotFree(roles[i]))
    && (forall i, j :: 0 <= i < j < |roles| ==> roles[i] != roles[j])
  }

  lemma AttachedRoles(a: Attachment, role: string)
    requires role != "" && DotFree(role)
    ensures var ws := AllToWire(Attached(a, role)); forall i :: 0 <= i < |ws| ==> RoleOf(ws[i]) == Some(role)
  {
    hide Attached, RoleOf;
    var ws := AllToWire(Attached(a, role));
    forall i | 0 <= i < |ws| ensures RoleOf(ws[i]) == Some(role) { AttachedHasItsRole(a, role, i); }
  }

  lemma {:induction false} LaidOutRole(roles: seq<string>, attached: map<string, Attachment>, role: string)
    requires Usable(roles, attached)
    ensures OfRole(LaidOut(roles, attached), role) == if role in roles then AllToWire(Attached(attached[role], role)) else []
  {
    hide Attached, RoleOf, DotFree, OfRole, AllToWire;
    if roles == [] {
      NoFields(role);
    } else {
      var n := |roles| - 1;
      var last := roles[n];
      var mine := AllToWire(Attached(attached[last], last));
      LaidOutRole(roles[..n], attached, role);
      AttachedRoles(attached[last], last);
      OfRoleAll(mine, role, last);
      OfRoleConcat(LaidOut(roles[..n], attached), mine, role);
      assert role in roles <==> role in roles[..n] || role == last;
      assert last !in roles[..n];
    }
  }

  lemma NoFields(role: string)
    ensures OfRole([], role) == []
  {
  }

  lemma {:induction false} LaidOutHasRoles(roles: seq<string>, attached: map<string, Attachment>, i: nat)
    requires Usable(roles, attached) && i < |LaidOut(roles, attached)|
    ensures RoleOf(LaidOut(roles, attached)[i]).Some? && RoleOf(LaidOut(roles, attached)[i]).value in roles
  {
    hide Attached, RoleOf, DotFree, AllToWire;
    var n := |roles| - 1;
    var init := LaidOut(roles[..n], attached);
    if i < |init| {
      LaidOutHasRoles(roles[..n], attached, i);
    } else {
      AttachedRoles(attached[roles[n]], roles[n]);
    }
  }

  /** Attachments under any non-empty dot-free roles are carried by some event. */
  lemma AnythingCanBeCarried(attached: map<string, Attachment>, roles: seq<string>)
    requires forall role :: role in attached ==> role != "" && DotFree(role)
    requires (forall role :: role in roles <==> role in attached) && forall i, j :: 0 <= i < j < |roles| ==> roles[i] != roles[j]
    ensures Carries(LaidOut(roles, attached), attached)
  {
    hide Attached, RoleOf, OfRole, DotFree;
    assert Usable(roles, attached) by { assert forall i :: 0 <= i < |roles| ==> roles[i] in roles; }
    var fields := LaidOut(roles, attached);
    forall role | role in attached ensures OfRole(fields, role) == AllToWire(Attached(attached[role], role)) {
      LaidOutRole(roles, attached, role);
    }
    forall i | 0 <= i < |fields| ensures RoleOf(fields[i]).Some? ==> RoleOf(fields[i]).value in attached {
      LaidOutHasRoles(roles, attached, i);
    }
  }

  lemma {:induction false} OfRoleNone(fields: seq<WireField>, role: string)
    ensures OfRole(fields, role) != [] ==> exists i :: 0 <= i < |fields| && RoleOf(fields[i]) == Some(role)
  {
    if fields != [] {
      var n := |fields| - 1;
      OfRoleNone(fields[..n], role);
      if OfRole(fields, role) != [] && RoleOf(fields[n]) != Some(role) {
        var i :| 0 <= i < n && RoleOf(fields[..n][i]) == Some(role);
        assert RoleOf(fields[i]) == Some(role);
      }
    }
  }

  /** Reassembly: the links are the attachments, whatever the interleaving. */
  lemma LinksAreAttachments(fields: seq<WireField>, attached: map<string, Attachment>, role: string)
    requires Carries(fields, attached)
    ensures role in ApplyAll(fields) <==> role in attached
    ensures role in attached ==> ApplyAll(fields)[role] == LinkOf(role, attached[role])
  {
    hide Fold, Attached, ApplyAll;
    RoleIsItsFields(fields, role);
    if role in attached {
      AttachmentRoundTrip(attached[role], role);
      assert |AllToWire(Attached(attached[role], role))| > 0 by { SomeFields(attached[role], role); }
    } else {
      OfRoleNone(fields, role);
    }
  }

  lemma SomeFields(a: Attachment, role: string)
    ensures |Attached(a, role)| >= 1
  {
  }

  /** The attachments that name an object or an error. */
  ghost predicate Expected(attached: map<string, Attachment>, link: PayloadLink)
  {
    link.role in attached && link == LinkOf(link.role, attached[link.role]) && Named(link)
  }

  lemma PayloadsAreAttachments(fields: seq<WireField>, attached: map<string, Attachment>, payloads: seq<PayloadLink>)
    requires Carries(fields, attached) && IsListing(ApplyAll(fields), payloads)
    ensures Ascending(Roles(payloads)) && forall link :: link in payloads <==> Expected(attached, link)
  {
    hide ApplyAll, Carries, Ascending, Roles;
    forall link ensures link in payloads <==> Expected(attached, link) {
      LinksAreAttachments(fields, attached, link.role);
    }
  }

  /** Fields survive: each is read back as the field that was logged. */
  lemma FieldsSurvive(fields: seq<Field>)
    requires forall i :: 0 <= i < |fields| ==> Constructed(fields[i])
    ensures forall i :: 0 <= i < |fields| ==> FromWire(AllToWire(fields)[i]) == Some(fields[i])
  {
  }

  /** The round trip of an event: encoding and normalising gives back its identifiers,
      level, scope, entity and fields, and as payloads exactly the attachments it carries
      that name an object or an error, sorted by role. */
  lemma EventRoundTrip(e: Event, attached: map<string, Attachment>, r: EventRecord)
    requires WellFormed(e) && (forall i :: 0 <= i < |e.fields| ==> Constructed(e.fields[i]))
    requires Carries(AllToWire(e.fields), attached) && Normalized(ToWireEvent(e), r)
    ensures r.ids == e.ids && r.time == e.time && r.kind == e.kind && r.level == e.level
    ensures r.attempt == e.attempt && r.source == e.source && r.place == e.place
    ensures |r.fields| == |e.fields| && forall i :: 0 <= i < |e.fields| ==> FromWire(r.fields[i]) == Some(e.fields[i])
    ensures Ascending(Roles(r.payloads)) && forall link :: link in r.payloads <==> Expected(attached, link)
  {
    hide ApplyAll, Carries, Ascending, Roles, IsListing, ParseTexts, ToTexts, ColumnsOf, ErrorIn, FromWire, ToWire, Constructed;
    IdsRoundTrip(e.ids);
    LevelRoundTrip(e.level);
    FieldsSurvive(e.fields);
    PayloadsAreAttachments(AllToWire(e.fields), attached, r.payloads);
  }

  /** The payload list is determined by what is in it. */
  lemma {:induction false} ListingUnique(a: seq<PayloadLink>, b: seq<PayloadLink>)
    requires Ascending(Roles(a)) && Ascending(Roles(b)) && forall link :: link in a <==> link in b
    ensures a == b
  {
    EmptyTogether(a, b);
    if a != [] {
      HeadsAgree(a, b);
      var x, y := a[1..], b[1..];
      TailOf(a);
      TailOf(b);
      forall link ensures link in x <==> link in y {
        assert link in a <==> link in b;
      }
      ListingUnique(x, y);
      assert a == [a[0]] + x && b == [b[0]] + y;
    }
  }

  lemma EmptyTogether(a: seq<PayloadLink>, b: seq<PayloadLink>)
    requires forall link :: link in a <==> link in b
    ensures a == [] <==> b == []
  {
    if a != [] { assert a[0] in b; }
    if b != [] { assert b[0] in a; }
  }

  lemma HeadsAgree(a: seq<PayloadLink>, b: seq<PayloadLink>)
    requires Ascending(Roles(a)) && Ascending(Roles(b)) && a != [] && b != [] && forall link :: link in a <==> link in b
    ensures a[0] == b[0]
  {
    assert a[0] in b && b[0] in a;
    var i :| 0 <= i < |b| && b[i] == a[0];
    var j :| 0 <= j < |a| && a[j] == b[0];
    if i > 0 && j > 0 {
      assert Less(Roles(b)[0], Roles(b)[i]) && Less(Roles(a)[0], Roles(a)[j]);
      LessTotal(a[0].role, b[0].role);
    }
  }

  lemma TailOf(a: seq<PayloadLink>)
    requires a != [] && Ascending(Roles(a))
    ensures Ascending(Roles(a[1..])) && forall link :: link in a[1..] <==> link in a && link != a[0]
  {
    var x := a[1..];
    forall i, j | 0 <= i < j < |x| ensures Less(Roles(x)[i], Roles(x)[j]) { assert Less(Roles(a)[i + 1], Roles(a)[j + 1]); }
    forall i | 0 < i < |a| ensures a[i] != a[0] { assert Less(Roles(a)[0], Roles(a)[i]); LessTotal(a[0].role, a[0].role); }
    forall link | link in a && link != a[0] ensures link in x {
      var i :| 0 <= i < |a| && a[i] == link;
      assert x[i - 1] == link;
    }
  }
}
