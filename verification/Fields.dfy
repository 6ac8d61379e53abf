/** Typed event fields, their wire form, and the fields a payload reference becomes. */
module Fields {
  import opened Common
  import opened TextCodec

  // ---- Numbers ----

  type Word = n: nat | n < UINT64

  type Int64 = v: int | MIN64 <= v <= MAX64

  /** uint64(v): two's-complement bits. */
  function Bits(v: Int64): (n: Word)
  {
    if v >= 0 then v else v + UINT64
  }

  /** int64(n). */
  function Signed(n: Word): (v: Int64)
  {
    if n <= MAX64 then n else n - UINT64
  }

  lemma BitsRoundTrip(v: Int64, n: Word)
    ensures Signed(Bits(v)) == v && Bits(Signed(n)) == n
  {
  }

  /** UnixNano: nanoseconds that do not fit an int64 wrap around. */
  function Wrap64(t: int): Int64
  {
    Signed(t % UINT64)
  }

  lemma WrapKeepsExactly(t: int)
    ensures Wrap64(t) == t <==> MIN64 <= t <= MAX64
  {
  }

  // ---- Fields ----

  datatype FieldKind = StringKind | IntKind | Int64Kind | BoolKind | FloatKind | DurationKind | ErrorKind | OtherKind(code: nat)

  datatype Field = Field(key: string, kind: FieldKind, text: string, num: Word)

  function StringField(key: string, value: string): Field
  {
    Field(key, StringKind, value, 0)
  }

  function Int64Field(key: string, value: Int64): Field
  {
    Field(key, Int64Kind, "", Bits(value))
  }

  predicate Textual(k: FieldKind)
  {
    k.StringKind? || k.ErrorKind?
  }

  /** What the constructors build: a known kind, and only the part that kind uses. */
  predicate Constructed(f: Field)
  {
    !f.kind.OtherKind? && (if Textual(f.kind) then f.num == 0 else f.text == "")
  }

  datatype WireField = WireField(key: string, name: string, text: string, num: Word)

  function KindName(k: FieldKind): string
  {
    match k
    case StringKind => "string"
    case IntKind => "int"
    case Int64Kind => "int64"
    case BoolKind => "bool"
    case FloatKind => "float64"
    case DurationKind => "duration"
    case ErrorKind => "error"
    case OtherKind(_) => "unknown"
  }

  /** fromEvent keeps the text of textual kinds and the bits of the others. */
  function ToWire(f: Field): WireField
  {
    if Textual(f.kind) then WireField(f.key, KindName(f.kind), f.text, 0)
    else WireField(f.key, KindName(f.kind), "", Bits(Signed(f.num)))
  }

  function KindOf(name: string): Option<FieldKind>
  {
    if name == "string" then Some(StringKind)
    else if name == "int" then Some(IntKind)
    else if name == "int64" then Some(Int64Kind)
    else if name == "bool" then Some(BoolKind)
    else if name == "float64" then Some(FloatKind)
    else if name == "duration" then Some(DurationKind)
    else if name == "error" then Some(ErrorKind)
    else None
  }

  function FromWire(w: WireField): Option<Field>
  {
    if KindOf(w.name).Some? then Some(Field(w.key, KindOf(w.name).value, w.text, w.num)) else None
  }

  /** A field survives the wire exactly when a constructor could have built it. */
  lemma WireKeepsField(f: Field)
    ensures FromWire(ToWire(f)) == Some(f) <==> Constructed(f)
  {
  }

  function AllToWire(fs: seq<Field>): seq<WireField>
  {
    seq(|fs|, i requires 0 <= i < |fs| => ToWire(fs[i]))
  }

  // ---- Payload references ----

  datatype PayloadRef = PayloadRef(
    store: string, key: string, contentType: string, size: Int64, storedSize: Int64, sum: Checksum,
    compression: string, retainUntil: Option<int>, retentionClass: string)

  const PREFIX := "payload."

  function Joined(role: string, name: string): string
  {
    PREFIX + role + "." + name
  }

  /** The fields of a reference; empty optional values are left out. */
  ghost function FieldsOf(r: PayloadRef, role: string): seq<Field>
  {
    [StringField(Joined(role, "store"), r.store), StringField(Joined(role, "key"), r.key),
     StringField(Joined(role, "content_type"), r.contentType), Int64Field(Joined(role, "size"), r.size),
     Int64Field(Joined(role, "stored_size"), r.storedSize), StringField(Joined(role, "sha256"), HexText(r.sum))]
    + (if r.compression != "" then [StringField(Joined(role, "compression"), r.compression)] else [])
    + (if r.retainUntil.Some? then [Int64Field(Joined(role, "retain_until_unix_nano"), Wrap64(r.retainUntil.value))] else [])
    + (if r.retentionClass != "" then [StringField(Joined(role, "retention_class"), r.retentionClass)] else [])
  }

  /** Ref.Fields. */
  method RefFields(r: PayloadRef, role: string) returns (fields: seq<Field>)
    ensures fields == FieldsOf(r, role)
  {
    var checksum := ChecksumText(r.sum);
    fields := [
      StringField(Joined(role, "store"), r.store), StringField(Joined(role, "key"), r.key),
      StringField(Joined(role, "content_type"), r.contentType), Int64Field(Joined(role, "size"), r.size),
      Int64Field(Joined(role, "stored_size"), r.storedSize), StringField(Joined(role, "sha256"), checksum)];
    if r.compression != "" { fields := fields + [StringField(Joined(role, "compression"), r.compression)]; }
    if r.retainUntil.Some? { fields := fields + [Int64Field(Joined(role, "retain_until_unix_nano"), Wrap64(r.retainUntil.value))]; }
    if r.retentionClass != "" { fields := fields + [StringField(Joined(role, "retention_class"), r.retentionClass)]; }
  }

  // ---- Reading them back ----

  datatype PayloadLink = PayloadLink(
    role: string, ref: PayloadRef, originalSize: Int64, capturedSize: Int64, truncated: bool, error: string)

  function NoSum(): Checksum
  {
    seq(32, i => 0)
  }

  function NoRef(): PayloadRef
  {
    PayloadRef("", "", "", 0, 0, NoSum(), "", None, "")
  }

  function NewLink(role: string): PayloadLink
  {
    PayloadLink(role, NoRef(), 0, 0, false, "")
  }

  /** payload.<role>.<name>: the role is not empty and ends at the first dot. */
  function SplitKey(key: string): Option<(string, string)>
  {
    if PREFIX <= key then SplitRest(key[|PREFIX|..]) else None
  }

  function SplitRest(rest: string): Option<(string, string)>
  {
    IndexOfFound(rest, '.');
    var dot := IndexOf(rest, '.');
    if dot.None? || dot.value == 0 then None else Some((rest[..dot.value], rest[dot.value + 1..]))
  }

  predicate DotFree(role: string)
  {
    forall i :: 0 <= i < |role| ==> role[i] != '.'
  }

  lemma SplitJoined(role: string, name: string)
    requires role != "" && DotFree(role)
    ensures SplitKey(Joined(role, name)) == Some((role, name))
  {
    var key := Joined(role, name);
    var rest := key[|PREFIX|..];
    assert key == PREFIX + (role + "." + name);
    assert rest == role + "." + name;
    assert rest[|role|] == '.' && forall i :: 0 <= i < |role| ==> rest[i] != '.';
    IndexOfFound(rest, '.');
    assert rest[..|role|] == role && rest[|role| + 1..] == name;
  }

  /** One case of applyPayloadField; a checksum that is not 64 hex digits is ignored. */
  function Apply(link: PayloadLink, name: string, w: WireField): PayloadLink
  {
    var r := link.ref;
    if name == "store" then link.(ref := r.(store := w.text))
    else if name == "key" then link.(ref := r.(key := w.text))
    else if name == "content_type" then link.(ref := r.(contentType := w.text))
    else if name == "size" then link.(ref := r.(size := Signed(w.num)))
    else if name == "stored_size" then link.(ref := r.(storedSize := Signed(w.num)))
    else if name == "sha256" then
      var sum := Unhex(w.text);
      if sum.Some? && |sum.value| == 32 then link.(ref := r.(sum := sum.value)) else link
    else if name == "compression" then link.(ref := r.(compression := w.text))
    else if name == "retain_until_unix_nano" then link.(ref := r.(retainUntil := Some(Signed(w.num))))
    else if name == "retention_class" then link.(ref := r.(retentionClass := w.text))
    else if name == "original_size" then link.(originalSize := Signed(w.num))
    else if name == "captured_size" then link.(capturedSize := Signed(w.num))
    else if name == "truncated" then link.(truncated := w.num != 0)
    else if name == "error" then link.(error := w.text)
    else link
  }

  /** applyPayloadField on the table of links. */
  function ApplyField(links: map<string, PayloadLink>, w: WireField): map<string, PayloadLink>
  {
    var split := SplitKey(w.key);
    if split.None? then links
    else
      var role := split.value.0;
      links[role := Apply(if role in links then links[role] else NewLink(role), split.value.1, w)]
  }

  function ApplyAll(fields: seq<WireField>): map<string, PayloadLink>
  {
    if fields == [] then map[] else ApplyField(ApplyAll(fields[..|fields| - 1]), fields[|fields| - 1])
  }

  // ---- Each role sees only its own fields ----

  function RoleOf(w: WireField): Option<string>
  {
    if SplitKey(w.key).Some? then Some(SplitKey(w.key).value.0) else None
  }

  function OfRole(fields: seq<WireField>, role: string): seq<WireField>
  {
    if fields == [] then []
    else
      var last := fields[|fields| - 1];
      OfRole(fields[..|fields| - 1], role) + (if RoleOf(last) == Some(role) then [last] else [])
  }

  /** Fields of one role, applied in order. */
  function Fold(role: string, fields: seq<WireField>): PayloadLink
  {
    if fields == [] then NewLink(role)
    else
      var last := fields[|fields| - 1];
      var link := Fold(role, fields[..|fields| - 1]);
      if SplitKey(last.key).Some? then Apply(link, SplitKey(last.key).value.1, last) else link
  }

  lemma FoldSnoc(role: string, fields: seq<WireField>, w: WireField)
    ensures Fold(role, fields + [w])
         == if SplitKey(w.key).Some? then Apply(Fold(role, fields), SplitKey(w.key).value.1, w) else Fold(role, fields)
  {
  }

  /** Whatever the other fields are, a role's link is made from that role's fields. */
  lemma {:induction false} RoleIsItsFields(fields: seq<WireField>, role: string)
    ensures role in ApplyAll(fields) <==> OfRole(fields, role) != []
    ensures role in ApplyAll(fields) ==> ApplyAll(fields)[role] == Fold(role, OfRole(fields, role))
  {
    hide Apply, SplitKey;
    if fields != [] {
      var n := |fields| - 1;
      RoleIsItsFields(fields[..n], role);
      var init := OfRole(fields[..n], role);
      if RoleOf(fields[n]) == Some(role) {
        FoldSnoc(role, init, fields[n]);
        assert OfRole(fields, role) == init + [fields[n]];
      } else {
        assert OfRole(fields, role) == init;
      }
    }
  }

  // ---- The round trip of one reference ----

  lemma FoldWire(role: string, fields: seq<WireField>, name: string, w: WireField)
    requires role != "" && DotFree(role) && w.key == Joined(role, name)
    ensures Fold(role, fields + [w]) == Apply(Fold(role, fields), name, w)
  {
    SplitJoined(role, name);
    FoldSnoc(role, fields, w);
  }

  lemma FoldTexts(r: PayloadRef, role: string)
    requires role != "" && DotFree(role)
    ensures Fold(role, AllToWire(FieldsOf(r, role))[..3])
         == NewLink(role).(ref := NoRef().(store := r.store, key := r.key, contentType := r.contentType))
  {
    hide SplitKey, Fold, NoRef;
    var ws := AllToWire(FieldsOf(r, role));
    FoldEmpty(role, ws);
    FoldNext(role, ws, 0, "store");
    FoldNext(role, ws, 1, "key");
    FoldNext(role, ws, 2, "content_type");
  }

  /** The six fields that are always there. */
  lemma FoldBasics(r: PayloadRef, role: string)
    requires role != "" && DotFree(role)
    ensures Fold(role, AllToWire(FieldsOf(r, role))[..6])
         == PayloadLink(role, r.(compression := "", retainUntil := None, retentionClass := ""), 0, 0, false, "")
  {
    hide SplitKey, Fold, NoSum;
    var ws := AllToWire(FieldsOf(r, role));
    UnhexHex(r.sum);
    BitsRoundTrip(r.size, 0);
    BitsRoundTrip(r.storedSize, 0);
    FoldTexts(r, role);
    FoldNext(role, ws, 3, "size");
    FoldNext(role, ws, 4, "stored_size");
    FoldNext(role, ws, 5, "sha256");
  }

  lemma FoldEmpty(role: string, ws: seq<WireField>)
    ensures Fold(role, ws[..0]) == NewLink(role)
  {
  }

  lemma FoldNext(role: string, ws: seq<WireField>, i: nat, name: string)
    requires i < |ws| && role != "" && DotFree(role) && ws[i].key == Joined(role, name)
    ensures Fold(role, ws[..i + 1]) == Apply(Fold(role, ws[..i]), name, ws[i])
  {
    assert ws[..i + 1] == ws[..i] + [ws[i]];
    FoldWire(role, ws[..i], name, ws[i]);
  }

  /** What survives of a reference: a retain-until time is carried as int64 nanoseconds. */
  function Carried(r: PayloadRef): PayloadRef
  {
    if r.retainUntil.Some? then r.(retainUntil := Some(Wrap64(r.retainUntil.value))) else r
  }

  lemma RefCarried(r: PayloadRef, role: string)
    requires role != "" && DotFree(role)
    ensures Fold(role, AllToWire(FieldsOf(r, role))) == PayloadLink(role, Carried(r), 0, 0, false, "")
  {
    hide SplitKey, Fold, Wrap64;
    var ws := AllToWire(FieldsOf(r, role));
    FoldBasics(r, role);
    var i := 6;
    if r.compression != "" {
      FoldNext(role, ws, i, "compression");
      i := i + 1;
    }
    if r.retainUntil.Some? {
      BitsRoundTrip(Wrap64(r.retainUntil.value), 0);
      FoldNext(role, ws, i, "retain_until_unix_nano");
      i := i + 1;
    }
    if r.retentionClass != "" {
      FoldNext(role, ws, i, "retention_class");
      i := i + 1;
    }
    assert ws[..i] == ws;
  }

  predicate FitsInt64(r: PayloadRef)
  {
    r.retainUntil.Some? ==> MIN64 <= r.retainUntil.value <= MAX64
  }

  /** The fields of a reference give the reference back if and only if its retain-until time
      fits int64 nanoseconds; everything else always comes back. */
  lemma RefRoundTrip(r: PayloadRef, role: string)
    requires role != "" && DotFree(role)
    ensures var link := Fold(role, AllToWire(FieldsOf(r, role)));
            && (link == PayloadLink(role, r, 0, 0, false, "") <==> FitsInt64(r))
            && link == PayloadLink(role, r.(retainUntil := link.ref.retainUntil), 0, 0, false, "")
  {
    hide SplitKey, Fold, Wrap64, FieldsOf;
    RefCarried(r, role);
    if r.retainUntil.Some? { WrapKeepsExactly(r.retainUntil.value); }
  }

  // ---- What an event attaches under a role ----

  datatype Captured = Captured(original: Int64, size: Int64, truncated: bool)

  /** A stored payload, with what the HTTP spooler adds about the capture, or why storing
      it failed. */
  datatype Attachment = Stored(ref: PayloadRef, capture: Option<Captured>) | Failed(message: string)

  function BoolField(key: string, value: bool): Field
  {
    Field(key, BoolKind, "", if value then 1 else 0)
  }

  function CaptureFields(c: Captured, role: string): seq<Field>
  {
    [Int64Field(Joined(role, "original_size"), c.original), Int64Field(Joined(role, "captured_size"), c.size),
     BoolField(Joined(role, "truncated"), c.truncated)]
  }

  ghost function Attached(a: Attachment, role: string): seq<Field>
  {
    match a
    case Stored(ref, capture) => FieldsOf(ref, role) + (if capture.Some? then CaptureFields(capture.value, role) else [])
    case Failed(message) => [StringField(Joined(role, "error"), message)]
  }

  /** What the spooler's worker appends for one body. */
  method Attach(a: Attachment, role: string) returns (fields: seq<Field>)
    ensures fields == Attached(a, role)
  {
    if a.Failed? { return [StringField(Joined(role, "error"), a.message)]; }
    fields := RefFields(a.ref, role);
    if a.capture.Some? { fields := fields + CaptureFields(a.capture.value, role); }
  }

  function LinkOf(role: string, a: Attachment): PayloadLink
  {
    match a
    case Stored(ref, None) => PayloadLink(role, Carried(ref), 0, 0, false, "")
    case Stored(ref, Some(c)) => PayloadLink(role, Carried(ref), c.original, c.size, c.truncated, "")
    case Failed(message) => NewLink(role).(error := message)
  }

  lemma CaptureRoundTrip(ref: PayloadRef, c: Captured, role: string)
    requires role != "" && DotFree(role)
    ensures Fold(role, AllToWire(FieldsOf(ref, role) + CaptureFields(c, role))) == PayloadLink(role, Carried(ref), c.original, c.size, c.truncated, "")
  {
    hide SplitKey, Fold, FieldsOf;
    var n := |FieldsOf(ref, role)|;
    var ws := AllToWire(FieldsOf(ref, role) + CaptureFields(c, role));
    assert ws[..n] == AllToWire(FieldsOf(ref, role));
    RefCarried(ref, role);
    BitsRoundTrip(c.original, 0);
    BitsRoundTrip(c.size, 0);
    FoldNext(role, ws, n, "original_size");
    FoldNext(role, ws, n + 1, "captured_size");
    FoldNext(role, ws, n + 2, "truncated");
    assert ws[..n + 3] == ws;
  }

  /** The fields of an attachment give back its link. */
  lemma AttachmentRoundTrip(a: Attachment, role: string)
    requires role != "" && DotFree(role)
    ensures Fold(role, AllToWire(Attached(a, role))) == LinkOf(role, a)
  {
    hide SplitKey, Fold, FieldsOf, NoRef;
    match a
    case Stored(ref, None) =>
      RefCarried(ref, role);
      assert Attached(a, role) == FieldsOf(ref, role);
    case Stored(ref, Some(c)) => CaptureRoundTrip(ref, c, role);
    case Failed(message) =>
      var ws := AllToWire(Attached(a, role));
      FoldEmpty(role, ws);
      FoldNext(role, ws, 0, "error");
      assert ws[..1] == ws;
  }

  lemma JoinedRole(role: string, name: string, w: WireField)
    requires role != "" && DotFree(role) && w.key == Joined(role, name)
    ensures RoleOf(w) == Some(role)
  {
    SplitJoined(role, name);
  }

  lemma RefHasItsRole(ref: PayloadRef, role: string, i: nat)
    requires role != "" && DotFree(role) && i < |FieldsOf(ref, role)|
    ensures RoleOf(ToWire(FieldsOf(ref, role)[i])) == Some(role)
  {
    hide RoleOf, ToWire, Joined;
    forall name, w: WireField | w.key == Joined(role, name) ensures RoleOf(w) == Some(role) { JoinedRole(role, name, w); }
    ToWireKey(FieldsOf(ref, role)[i]);
  }

  lemma ToWireKey(f: Field)
    ensures ToWire(f).key == f.key
  {
  }

  lemma AttachedHasItsRole(a: Attachment, role: string, i: nat)
    requires role != "" && DotFree(role) && i < |Attached(a, role)|
    ensures RoleOf(AllToWire(Attached(a, role))[i]) == Some(role)
  {
    hide RoleOf, ToWire, Joined, FieldsOf;
    var f := Attached(a, role)[i];
    ToWireKey(f);
    if a.Stored? && i < |FieldsOf(a.ref, role)| {
      RefHasItsRole(a.ref, role, i);
    } else {
      forall name, w: WireField | w.key == Joined(role, name) ensures RoleOf(w) == Some(role) { JoinedRole(role, name, w); }
    }
  }
}
