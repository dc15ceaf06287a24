/**
 LLM optimization contributions on the wire (`go/nemo_relay/optimization.go`): known fields are
 decoded, unknown top-level members are kept in `Extra` and written out again.

 JSON is modelled by its values. `encoding/json` matches a member to a struct field by its exact
 name first and otherwise by its case-folded name, in document order. A later member replaces an
 earlier one of the same field, except that an object is decoded into the struct that is already
 there, so that repeated struct members merge.
 */
module Contribution {
  import opened Prelude

  /** A decoded Go struct, nested ones included, as the values of its set fields. */
  type Struct = map<nat, nat>

  /** What an object does to a struct that it is decoded into: nulls clear pointers, values are set. */
  datatype Patch = Patch(cleared: set<nat>, given: Struct)

  /**
   A JSON value. An object is known by what it does to each struct field that it can be decoded into,
   and by whatever else it contains.
   */
  datatype Json =
    | JNull
    | JBool(flag: bool)
    | JNumber(number: int)
    | JString(text: string)
    | JArray(items: nat)
    | JObject(patches: map<Field, Patch>, rest: nat)

  /** `json.RawMessage`: absent, empty, bytes that are not one JSON value, or one JSON value. */
  datatype Raw = Nil | Empty | Broken(blank: bool) | Valid(value: Json)

  datatype Wire = Wire(
    id: Option<string>,
    sequence: Option<nat>,
    producer: string,
    kind: string,
    applied: bool,
    modelTransition: Option<Struct>,
    tokenImpact: Option<Struct>,
    payloadSchema: Option<Struct>,
    payload: Raw)

  datatype Data = Data(wire: Wire, extra: map<Name, Raw>)

  /** Go's `uint64` bounds the sequence number. */
  predicate ValidWire(w: Wire) {
    w.sequence.Some? ==> w.sequence.value <= MAX_U64
  }

  /** The fields of the wire structure. */
  datatype Field = Id | Sequence | Producer | Kind | Applied | ModelTransition | TokenImpact | PayloadSchema | Payload

  const FIELDS: seq<Field> := [Id, Sequence, Producer, Kind, Applied, ModelTransition, TokenImpact, PayloadSchema,
                               Payload]

  function Position(field: Field): nat {
    match field
    case Id => 0
    case Sequence => 1
    case Producer => 2
    case Kind => 3
    case Applied => 4
    case ModelTransition => 5
    case TokenImpact => 6
    case PayloadSchema => 7
    case Payload => 8
  }

  /**
   A member name: exactly the name of a field, another spelling that case-folds to the name of a
   field (`ID`, or one with a Kelvin sign or a long s), or a name that matches no field.
   */
  datatype Name = Exact(field: Field) | Variant(field: Field, spelling: string) | Foreign(spelling: string)

  datatype Member = Member(name: Name, value: Json)

  datatype Document = NotJson | NotAnObject | Object(members: seq<Member>)

  // ----- encoding/json on the wire structure --------------------------------------------

  function TextOr(v: Json, present: string): Option<string> {
    match v
    case JNull => Some(present)
    case JString(t) => Some(t)
    case _ => None
  }

  function Patched(present: Option<Struct>, p: Patch): Struct {
    if present.None? then p.given else present.value - p.cleared + p.given
  }

  /** Decode into a pointer to a struct: null makes it nil, an object is merged into what is there. */
  function StructOr(v: Json, field: Field, present: Option<Struct>): Option<Option<Struct>> {
    match v
    case JNull => Some(None)
    case JObject(patches, _) => if field in patches then Some(Some(Patched(present, patches[field]))) else None
    case _ => None
  }

  /** Store one member; None is a type mismatch. */
  function Store(w: Wire, field: Field, v: Json): Option<Wire> {
    match field
    case Id =>
      (match v
       case JNull => Some(w.(id := None))
       case JString(t) => Some(w.(id := Some(t)))
       case _ => None)
    case Sequence =>
      (match v
       case JNull => Some(w.(sequence := None))
       case JNumber(n) => if 0 <= n <= MAX_U64 then Some(w.(sequence := Some(n))) else None
       case _ => None)
    case Producer => var t := TextOr(v, w.producer); if t.None? then None else Some(w.(producer := t.value))
    case Kind => var t := TextOr(v, w.kind); if t.None? then None else Some(w.(kind := t.value))
    case Applied =>
      (match v
       case JNull => Some(w)
       case JBool(b) => Some(w.(applied := b))
       case _ => None)
    case ModelTransition =>
      var d := StructOr(v, field, w.modelTransition); if d.None? then None else Some(w.(modelTransition := d.value))
    case TokenImpact =>
      var d := StructOr(v, field, w.tokenImpact); if d.None? then None else Some(w.(tokenImpact := d.value))
    case PayloadSchema =>
      var d := StructOr(v, field, w.payloadSchema); if d.None? then None else Some(w.(payloadSchema := d.value))
    case Payload => Some(w.(payload := Valid(v)))
  }

  const ZERO := Wire(None, None, "", "", false, None, None, None, Nil)

  /** `json.Unmarshal(data, &known)`: all members in order, any mismatch fails the whole call. */
  function DecodeKnown(ms: seq<Member>): Option<Wire> {
    if ms == [] then Some(ZERO)
    else
      var w := DecodeKnown(ms[..|ms| - 1]);
      var m := ms[|ms| - 1];
      if w.None? then None
      else if m.name.Foreign? then w
      else Store(w.value, m.name.field, m.value)
  }

  /** `json.Unmarshal(data, &extra)`: later members replace earlier ones of the same name. */
  function AsMap(ms: seq<Member>): map<Name, Json> {
    if ms == [] then map[] else AsMap(ms[..|ms| - 1])[ms[|ms| - 1].name := ms[|ms| - 1].value]
  }

  function WrittenStruct(field: Field, data: Option<Struct>): Option<Json> {
    if data.Some? then Some(JObject(map[field := Patch({}, data.value)], 0)) else None
  }

  /** The value that `json.Marshal` writes for a field; absent options and an empty payload are left out. */
  function KnownValue(w: Wire, field: Field): Option<Json> {
    match field
    case Id => if w.id.Some? then Some(JString(w.id.value)) else None
    case Sequence => if w.sequence.Some? then Some(JNumber(w.sequence.value)) else None
    case Producer => Some(JString(w.producer))
    case Kind => Some(JString(w.kind))
    case Applied => Some(JBool(w.applied))
    case ModelTransition => WrittenStruct(field, w.modelTransition)
    case TokenImpact => WrittenStruct(field, w.tokenImpact)
    case PayloadSchema => WrittenStruct(field, w.payloadSchema)
    case Payload => if w.payload.Valid? then Some(w.payload.value) else None
  }

  const KNOWN: set<Name> := {Exact(Id), Exact(Sequence), Exact(Producer), Exact(Kind), Exact(Applied),
                             Exact(ModelTransition), Exact(TokenImpact), Exact(PayloadSchema), Exact(Payload)}

  lemma KnownIsExact(name: Name)
    ensures name in KNOWN <==> name.Exact?
  {
    if name.Exact? {
      match name.field
      case Id =>
      case Sequence =>
      case Producer =>
      case Kind =>
      case Applied =>
      case ModelTransition =>
      case TokenImpact =>
      case PayloadSchema =>
      case Payload =>
    }
  }

  /** `json.Marshal(known)` read back into a map. */
  function KnownMembers(w: Wire): map<Name, Json> {
    map name | name in KNOWN && KnownValue(w, name.field).Some? :: KnownValue(w, name.field).value
  }

  function HasPayload(payload: Raw): bool {
    match payload
    case Broken(blank) => !blank
    case Valid(v) => v != JNull
    case _ => false
  }

  // ----- MarshalJSON --------------------------------------------------------------------

  predicate Writable(raw: Raw) {
    raw.Nil? || raw.Valid?
  }

  function Written(raw: Raw): Json {
    if raw.Valid? then raw.value else JNull
  }

  /** The members of `Extra` that do not have a known name. */
  function Unknown(extra: map<Name, Raw>): map<Name, Raw> {
    map name | name in extra && !name.Exact? :: extra[name]
  }

  predicate Marshals(c: Data) {
    && (HasPayload(c.wire.payload) ==> c.wire.payloadSchema.Some?)
    && !c.wire.payload.Broken?
    && forall name :: name in Unknown(c.extra) ==> Writable(Unknown(c.extra)[name])
  }

  /** The members of the written document. */
  function Marshalled(c: Data): map<Name, Json>
    requires Marshals(c)
  {
    (map name | name in Unknown(c.extra) :: Written(Unknown(c.extra)[name])) + KnownMembers(c.wire)
  }

  /** `extra` after the first `n` known names have been deleted from it. */
  function Deleted<V>(extra: map<Name, V>, n: nat): map<Name, V> {
    map name | name in extra && !(name.Exact? && Position(name.field) < n) :: extra[name]
  }

  lemma DeleteOne<V>(extra: map<Name, V>, i: nat)
    requires i < |FIELDS|
    ensures Deleted(extra, i) - {Exact(FIELDS[i])} == Deleted(extra, i + 1)
  {
    assert Position(FIELDS[i]) == i;
    forall field: Field | Position(field) == i ensures field == FIELDS[i] {
    }
  }

  /** The raw message is empty or is not one JSON value. */
  predicate Unreadable(raw: Raw) {
    raw.Empty? || raw.Broken?
  }

  /** An optional field is present exactly if it is set, and then holds `v`. */
  predicate WritesField(m: map<Name, Json>, field: Field, given: bool, v: Json) {
    (Exact(field) in m <==> given) && (given ==> m[Exact(field)] == v)
  }

  predicate WritesStruct(m: map<Name, Json>, field: Field, data: Option<Struct>) {
    && (Exact(field) in m <==> data.Some?)
    && (data.Some? ==> m[Exact(field)] == JObject(map[field := Patch({}, data.value)], 0))
  }

  /** The known members of the document, by their own fields. */
  predicate WritesKnown(m: map<Name, Json>, w: Wire) {
    && WritesField(m, Id, w.id.Some?, if w.id.Some? then JString(w.id.value) else JNull)
    && WritesField(m, Sequence, w.sequence.Some?, if w.sequence.Some? then JNumber(w.sequence.value) else JNull)
    && WritesField(m, Producer, true, JString(w.producer))
    && WritesField(m, Kind, true, JString(w.kind))
    && WritesField(m, Applied, true, JBool(w.applied))
    && WritesStruct(m, ModelTransition, w.modelTransition)
    && WritesStruct(m, TokenImpact, w.tokenImpact)
    && WritesStruct(m, PayloadSchema, w.payloadSchema)
    && WritesField(m, Payload, w.payload.Valid?, if w.payload.Valid? then w.payload.value else JNull)
  }

  /** The other members of the document are those of `Extra`, a nil message as null. */
  ghost predicate WritesExtra(m: map<Name, Json>, extra: map<Name, Raw>) {
    && (forall name: Name :: !name.Exact? ==> (name in m <==> name in extra))
    && (forall name: Name :: !name.Exact? && name in extra ==>
          name in m && m[name] == if extra[name].Valid? then extra[name].value else JNull)
  }

  lemma MarshalsExactly(c: Data)
    ensures Marshals(c) <==>
              && !c.wire.payload.Broken?
              && (c.wire.payload.Valid? && c.wire.payload.value != JNull ==> c.wire.payloadSchema.Some?)
              && (forall name :: name in c.extra && !name.Exact? ==> !Unreadable(c.extra[name]))
  {
    forall name ensures name in Unknown(c.extra) <==> name in c.extra && !name.Exact? {
    }
  }

  function At(m: map<Name, Json>, field: Field): Option<Json> {
    if Exact(field) in m then Some(m[Exact(field)]) else None
  }

  /** Whatever `Extra` holds, a known name carries the known field, or nothing. */
  lemma ExtraNeverOverrides(c: Data, field: Field)
    requires Marshals(c)
    ensures At(Marshalled(c), field) == KnownValue(c.wire, field)
  {
    KnownIsExact(Exact(field));
  }

  lemma KnownValuesWritten(m: map<Name, Json>, w: Wire)
    requires forall field :: At(m, field) == KnownValue(w, field)
    ensures WritesKnown(m, w)
  {
    assert At(m, Id) == KnownValue(w, Id) && At(m, Sequence) == KnownValue(w, Sequence);
    assert At(m, Producer) == KnownValue(w, Producer) && At(m, Kind) == KnownValue(w, Kind);
    assert At(m, Applied) == KnownValue(w, Applied) && At(m, Payload) == KnownValue(w, Payload);
    assert At(m, ModelTransition) == KnownValue(w, ModelTransition);
    assert At(m, TokenImpact) == KnownValue(w, TokenImpact);
    assert At(m, PayloadSchema) == KnownValue(w, PayloadSchema);
  }

  lemma KnownIsWritten(c: Data)
    requires Marshals(c)
    ensures WritesKnown(Marshalled(c), c.wire)
  {
    forall field ensures At(Marshalled(c), field) == KnownValue(c.wire, field) { ExtraNeverOverrides(c, field); }
    KnownValuesWritten(Marshalled(c), c.wire);
  }

  lemma ExtraIsWritten(c: Data)
    requires Marshals(c)
    ensures WritesExtra(Marshalled(c), c.extra)
  {
    forall name ensures name in KNOWN <==> name.Exact? { KnownIsExact(name); }
  }

  /** A payload without its schema, or raw bytes that `json.Marshal` refuses. */
  datatype EncodeError = NeedsSchema | Unencodable

  /**
   `MarshalJSON` asks for a schema exactly if there is none although the payload is neither empty nor
   blank nor null; otherwise it fails exactly if the payload is not one JSON value, or an unknown extra
   member is empty or not one JSON value.
   */
  method MarshalJSON(c: Data) returns (r: Result<map<Name, Json>, EncodeError>)
    ensures r == Err(NeedsSchema) <==>
              && c.wire.payloadSchema.None?
              && c.wire.payload !in {Nil, Empty, Broken(true), Valid(JNull)}
    ensures r == Err(Unencodable) <==>
              && r != Err(NeedsSchema)
              && (c.wire.payload.Broken? ||
                  exists name :: name in c.extra && !name.Exact? && Unreadable(c.extra[name]))
    ensures r.Ok? ==> WritesKnown(r.value, c.wire) && WritesExtra(r.value, c.extra)
    ensures r.Ok? <==> Marshals(c)
    ensures r.Ok? ==> r.value == Marshalled(c)
  {
    MarshalsExactly(c);
    if Marshals(c) {
      KnownIsWritten(c);
      ExtraIsWritten(c);
    }
    if HasPayload(c.wire.payload) && c.wire.payloadSchema.None? { return Err(NeedsSchema); }
    if c.wire.payload.Broken? { return Err(Unencodable); }
    var known := KnownMembers(c.wire);
    var fields := c.extra;
    for i := 0 to |FIELDS|
      invariant fields == Deleted(c.extra, i)
    {
      DeleteOne(c.extra, i);
      fields := fields - {Exact(FIELDS[i])};
    }
    assert fields == Unknown(c.extra);
    if !(forall name :: name in fields ==> Writable(fields[name])) { return Err(Unencodable); }
    return Ok((map name | name in fields :: Written(fields[name])) + known);
  }

  // ----- UnmarshalJSON ------------------------------------------------------------------

  /** What a document decodes to; None is an error. */
  function Unmarshalled(doc: Document): Option<Data> {
    if !doc.Object? || DecodeKnown(doc.members).None? then None
    else
      var w := DecodeKnown(doc.members).value;
      var extra := AsMap(doc.members);
      if Exact(Producer) !in extra || Exact(Kind) !in extra || (HasPayload(w.payload) && w.payloadSchema.None?)
      then None
      else Some(Data(w, Others(extra)))
  }

  /** The members that become `Extra`. */
  function Others(all: map<Name, Json>): map<Name, Raw> {
    map name | name in all && !name.Exact? :: Valid(all[name])
  }

  class Cell {
    var value: Data

    /** `UnmarshalJSON` stores the decoded contribution, or leaves the receiver alone. */
    method UnmarshalJSON(doc: Document) returns (ok: bool)
      modifies this
      ensures ok <==> Unmarshalled(doc).Some?
      ensures value == if ok then Unmarshalled(doc).value else old(value)
    {
      if !doc.Object? { return false; }
      var known := DecodeKnown(doc.members);
      if known.None? { return false; }
      var extra := AsMap(doc.members);
      if Exact(Producer) !in extra { return false; }
      if Exact(Kind) !in extra { return false; }
      if HasPayload(known.value.payload) && known.value.payloadSchema.None? { return false; }
      var all := extra;
      for i := 0 to |FIELDS|
        invariant extra == Deleted(all, i)
      {
        DeleteOne(all, i);
        extra := extra - {Exact(FIELDS[i])};
      }
      assert (map name | name in extra :: Valid(extra[name])) == Others(all);
      value := Data(known.value, map name | name in extra :: Valid(extra[name]));
      return true;
    }
  }
}
