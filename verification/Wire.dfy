/** The transport envelope: encoding and validation.  JSON is an inverse pair, so an
    encoded envelope is kept as the value it encodes. */
module Wire {
  import opened Common
  import opened IdCodec
  import opened Fields

  datatype Ids = Ids(event: RawId, flow: RawId, execution: RawId, parentExecution: RawId, retryOf: RawId, parent: RawId)

  datatype IdTexts = IdTexts(event: string, flow: string, execution: string, parentExecution: string, retryOf: string, parent: string)

  datatype Place = Place(scopeType: string, scopeId: string, entityType: string, entityId: string)

  datatype Event = Event(
    ids: Ids, time: Int64, kind: string, level: nat, attempt: nat, source: string, place: Place, fields: seq<Field>)

  datatype WireEvent = WireEvent(
    ids: IdTexts, time: Int64, kind: string, level: string, attempt: nat, source: string, place: Place, fields: seq<WireField>)

  datatype Metadata = Metadata(service: string, environment: string, version: string)

  datatype Batch = Batch(metadata: Metadata, events: seq<Event>)

  datatype Envelope = Envelope(version: int, batchId: string, metadata: Metadata, events: seq<WireEvent>)

  const VERSION: int := 1

  function ZeroId(): RawId
  {
    seq(16, i => 0)
  }

  function LevelText(level: nat): string
  {
    if level == 0 then "debug" else if level == 1 then "info" else if level == 2 then "warn" else if level == 3 then "error" else "unknown"
  }

  // ---- Encoding ----

  /** Zero identifiers are left out. */
  ghost function OptionalText(id: RawId): string
  {
    if id == ZeroId() then "" else Encode(id)
  }

  ghost function ToTexts(ids: Ids): IdTexts
  {
    IdTexts(Encode(ids.event), OptionalText(ids.flow), OptionalText(ids.execution), OptionalText(ids.parentExecution),
            OptionalText(ids.retryOf), OptionalText(ids.parent))
  }

  ghost function ToWireEvent(e: Event): WireEvent
  {
    WireEvent(ToTexts(e.ids), e.time, e.kind, LevelText(e.level), e.attempt, e.source, e.place, AllToWire(e.fields))
  }

  method OptionalId(id: RawId) returns (text: string)
    ensures text == OptionalText(id)
  {
    if id == ZeroId() { return ""; }
    text := EncodeId(id);
  }

  method FromEvent(e: Event) returns (w: WireEvent)
    ensures w == ToWireEvent(e)
  {
    var event := EncodeId(e.ids.event);
    var flow := OptionalId(e.ids.flow);
    var execution := OptionalId(e.ids.execution);
    var parentExecution := OptionalId(e.ids.parentExecution);
    var retryOf := OptionalId(e.ids.retryOf);
    var parent := OptionalId(e.ids.parent);
    var fields: seq<WireField> := [];
    for i := 0 to |e.fields|
      invariant fields == AllToWire(e.fields[..i])
    {
      fields := fields + [ToWire(e.fields[i])];
    }
    assert e.fields[..|e.fields|] == e.fields;
    w := WireEvent(IdTexts(event, flow, execution, parentExecution, retryOf, parent), e.time, e.kind, LevelText(e.level),
                   e.attempt, e.source, e.place, fields);
  }

  // ---- Validation ----

  ghost predicate ValidText(text: string)
  {
    text == "" || Decode(text).Ok?
  }

  ghost predicate ValidTexts(t: IdTexts)
  {
    && t.event != "" && ValidText(t.event) && ValidText(t.flow) && ValidText(t.execution)
    && ValidText(t.parentExecution) && ValidText(t.retryOf) && ValidText(t.parent)
  }

  predicate ValidField(f: WireField)
  {
    f.key != "" && KindOf(f.name).Some?
  }

  ghost predicate ValidWire(w: WireEvent)
  {
    && w.time != 0 && w.kind != "" && ValidTexts(w.ids)
    && ((w.place.scopeType == "") == (w.place.scopeId == ""))
    && (w.level == "debug" || w.level == "info" || w.level == "warn" || w.level == "error")
    && forall i :: 0 <= i < |w.fields| ==> ValidField(w.fields[i])
  }

  method CheckText(text: string) returns (ok: bool)
    ensures ok <==> ValidText(text)
  {
    if text == "" { return true; }
    var r := DecodeId(text);
    ok := r.Ok?;
  }

  method CheckTexts(t: IdTexts) returns (ok: bool)
    ensures ok <==> ValidTexts(t)
  {
    hide ValidText;
    if t.event == "" { return false; }
    ok := CheckText(t.event);
    if !ok { return; }
    ok := CheckText(t.flow);
    if !ok { return; }
    ok := CheckText(t.execution);
    if !ok { return; }
    ok := CheckText(t.parentExecution);
    if !ok { return; }
    ok := CheckText(t.retryOf);
    if !ok { return; }
    ok := CheckText(t.parent);
  }

  /** validateEvent. */
  method CheckEvent(w: WireEvent) returns (ok: bool)
    ensures ok <==> ValidWire(w)
  {
    hide ValidTexts, ValidField;
    if w.time == 0 || w.kind == "" { return false; }
    ok := CheckTexts(w.ids);
    if !ok { return; }
    if (w.place.scopeType == "") != (w.place.scopeId == "") { return false; }
    if w.level != "debug" && w.level != "info" && w.level != "warn" && w.level != "error" { return false; }
    for i := 0 to |w.fields|
      invariant forall j :: 0 <= j < i ==> ValidField(w.fields[j])
    {
      if !ValidField(w.fields[i]) { return false; }
    }
    ok := true;
  }

  ghost predicate ValidEnvelope(v: Envelope)
  {
    && v.version == VERSION && v.events != [] && v.metadata.service != ""
    && v.batchId != "" && ValidText(v.batchId)
    && forall i :: 0 <= i < |v.events| ==> ValidWire(v.events[i])
  }

  /** Validate. */
  method Check(v: Envelope) returns (ok: bool)
    ensures ok <==> ValidEnvelope(v)
  {
    hide ValidText, ValidWire;
    if v.version != VERSION { return false; }
    if v.batchId == "" || v.events == [] || v.metadata.service == "" { return false; }
    ok := CheckText(v.batchId);
    if !ok { return; }
    for i := 0 to |v.events|
      invariant forall j :: 0 <= j < i ==> ValidWire(v.events[j])
    {
      ok := CheckEvent(v.events[i]);
      if !ok { return; }
    }
    ok := true;
  }

  // ---- What is accepted ----

  /** An event that may be sent. */
  predicate WellFormed(e: Event)
  {
    && e.time != 0 && e.kind != "" && ((e.place.scopeType == "") == (e.place.scopeId == "")) && e.level < 4
    && forall i :: 0 <= i < |e.fields| ==> e.fields[i].key != "" && !e.fields[i].kind.OtherKind?
  }

  lemma TextsValid(ids: Ids)
    ensures ValidTexts(ToTexts(ids))
  {
    hide Encode, Decode;
    forall id: RawId ensures Decode(Encode(id)) == Ok(id) && Encode(id) != "" { DecodeEncode(id); EncodeSome(id); }
  }

  lemma EncodeSome(id: RawId)
    ensures Encode(id) != ""
  {
  }

  lemma KindNames(k: FieldKind)
    ensures KindOf(KindName(k)) == if k.OtherKind? then None else Some(k)
  {
  }

  /** The encoding of an event is valid exactly when the event is well formed: the
      identifiers never matter. */
  lemma ValidExactly(e: Event)
    ensures ValidWire(ToWireEvent(e)) <==> WellFormed(e)
  {
    hide ValidTexts, ToTexts, KindOf, KindName;
    TextsValid(e.ids);
    var ws := AllToWire(e.fields);
    forall i | 0 <= i < |e.fields| ensures ValidField(ws[i]) <==> e.fields[i].key != "" && !e.fields[i].kind.OtherKind? {
      KindNames(e.fields[i].kind);
      assert ws[i].key == e.fields[i].key && ws[i].name == KindName(e.fields[i].kind);
    }
  }

  ghost function ToEnvelope(b: Batch): Envelope
    requires b.events != []
  {
    Envelope(VERSION, Encode(b.events[0].ids.event), b.metadata, seq(|b.events|, i requires 0 <= i < |b.events| => ToWireEvent(b.events[i])))
  }

  lemma EnvelopeValidExactly(b: Batch)
    requires b.events != []
    ensures ValidEnvelope(ToEnvelope(b)) <==> b.metadata.service != "" && forall i :: 0 <= i < |b.events| ==> WellFormed(b.events[i])
  {
    hide ValidWire, ToWireEvent, WellFormed, Encode, Decode;
    DecodeEncode(b.events[0].ids.event);
    EncodeSome(b.events[0].ids.event);
    var v := ToEnvelope(b);
    forall i | 0 <= i < |b.events| ensures ValidWire(v.events[i]) <==> WellFormed(b.events[i]) { ValidExactly(b.events[i]); }
  }

  /** MarshalBatch accepts exactly the non-empty batches of well-formed events that name
      a service. */
  method MarshalBatch(b: Batch) returns (r: Result<Envelope>)
    ensures r.Ok? <==> b.events != [] && b.metadata.service != "" && forall i :: 0 <= i < |b.events| ==> WellFormed(b.events[i])
    ensures r.Ok? ==> r.value == ToEnvelope(b)
  {
    hide ValidEnvelope, ToWireEvent, WellFormed, Encode;
    if b.events == [] { return Err("empty batch"); }
    var batchId := EncodeId(b.events[0].ids.event);
    var events: seq<WireEvent> := [];
    for i := 0 to |b.events|
      invariant |events| == i && forall j :: 0 <= j < i ==> events[j] == ToWireEvent(b.events[j])
    {
      var w := FromEvent(b.events[i]);
      events := events + [w];
    }
    var v := Envelope(VERSION, batchId, b.metadata, events);
    assert v == ToEnvelope(b);
    EnvelopeValidExactly(b);
    var ok := Check(v);
    if ok { return Ok(v); }
    return Err("invalid envelope");
  }
}
