/** What decoding a contribution does with every document, member by member. */
module ContributionDecoding {
  import opened Prelude
  import opened Contribution

  // ----- Which member decides a field ---------------------------------------------------

  /** The member matches the field, exactly or by case folding. */
  predicate Matches(m: Member, field: Field) {
    (m.name.Exact? || m.name.Variant?) && m.name.field == field
  }

  /** A null leaves a string or a boolean as it was, so it decides nothing. */
  predicate Decides(m: Member, field: Field) {
    Matches(m, field) && (field in {Producer, Kind, Applied} ==> m.value != JNull)
  }

  /** The last member that decides the field. */
  ghost predicate LastAt(ms: seq<Member>, field: Field, i: int) {
    0 <= i < |ms| && Decides(ms[i], field) && forall j :: i < j < |ms| ==> !Decides(ms[j], field)
  }

  ghost predicate Undecided(ms: seq<Member>, field: Field) {
    forall i :: 0 <= i < |ms| ==> !Decides(ms[i], field)
  }

  /** The JSON types that a field accepts, besides null. */
  predicate Fits(field: Field, v: Json) {
    match field
    case Id => v.JString?
    case Producer => v.JString?
    case Kind => v.JString?
    case Sequence => v.JNumber? && 0 <= v.number <= 18446744073709551615
    case Applied => v.JBool?
    case Payload => true
    case _ => v.JObject? && field in v.patches
  }

  predicate Typed(m: Member) {
    m.name.Foreign? || m.value == JNull || Fits(m.name.field, m.value)
  }

  ghost predicate AllTyped(ms: seq<Member>) {
    forall i :: 0 <= i < |ms| ==> Typed(ms[i])
  }

  // ----- One member ---------------------------------------------------------------------

  /** The two structures have the same value of the field. */
  predicate Same(field: Field, w: Wire, w': Wire) {
    match field
    case Id => w.id == w'.id
    case Sequence => w.sequence == w'.sequence
    case Producer => w.producer == w'.producer
    case Kind => w.kind == w'.kind
    case Applied => w.applied == w'.applied
    case ModelTransition => w.modelTransition == w'.modelTransition
    case TokenImpact => w.tokenImpact == w'.tokenImpact
    case PayloadSchema => w.payloadSchema == w'.payloadSchema
    case Payload => w.payload == w'.payload
  }

  lemma StoreAccepts(w: Wire, field: Field, v: Json)
    ensures Store(w, field, v).Some? <==> v == JNull || Fits(field, v)
  {
  }

  /** A member changes at most its own field, and only if it decides it. */
  lemma StoreKeeps(w: Wire, m: Member, field: Field)
    requires !m.name.Foreign? && Store(w, m.name.field, m.value).Some? && !Decides(m, field)
    ensures Same(field, Store(w, m.name.field, m.value).value, w)
  {
  }

  /** The structure that `present` and an object's patch make. */
  ghost predicate Merged(data: Option<Struct>, present: Option<Struct>, p: Patch) {
    && data.Some?
    && (forall k :: k in data.value <==>
          k in p.given || (present.Some? && k in present.value && k !in p.cleared))
    && (forall k :: k in data.value ==>
          data.value[k] == if k in p.given then p.given[k] else if present.Some? && k in present.value
                           then present.value[k] else 0)
  }

  ghost predicate StructDecoded(data: Option<Struct>, present: Option<Struct>, field: Field, v: Json) {
    if v == JNull then data == None else v.JObject? && field in v.patches && Merged(data, present, v.patches[field])
  }

  /** The field of `w` is what the value makes of the field of `present`. */
  ghost predicate FieldDecoded(w: Wire, present: Wire, field: Field, v: Json) {
    match field
    case Id => w.id == (if v.JString? then Some(v.text) else None)
    case Sequence => w.sequence == (if v.JNumber? && v.number >= 0 then Some(v.number) else None)
    case Producer => v == JString(w.producer)
    case Kind => v == JString(w.kind)
    case Applied => v == JBool(w.applied)
    case ModelTransition => StructDecoded(w.modelTransition, present.modelTransition, field, v)
    case TokenImpact => StructDecoded(w.tokenImpact, present.tokenImpact, field, v)
    case PayloadSchema => StructDecoded(w.payloadSchema, present.payloadSchema, field, v)
    case Payload => w.payload == Valid(v)
  }

  /** The zero value of the field. */
  predicate FieldZero(w: Wire, field: Field) {
    match field
    case Id => w.id == None
    case Sequence => w.sequence == None
    case Producer => w.producer == ""
    case Kind => w.kind == ""
    case Applied => !w.applied
    case ModelTransition => w.modelTransition == None
    case TokenImpact => w.tokenImpact == None
    case PayloadSchema => w.payloadSchema == None
    case Payload => w.payload == Nil
  }

  lemma StoreDecodes(w: Wire, m: Member, field: Field)
    requires Decides(m, field) && Store(w, field, m.value).Some?
    ensures FieldDecoded(Store(w, field, m.value).value, w, field, m.value)
  {
  }

  lemma SameDecoded(w: Wire, w': Wire, present: Wire, field: Field, v: Json)
    requires FieldDecoded(w, present, field, v) && Same(field, w', w)
    ensures FieldDecoded(w', present, field, v)
  {
  }

  // ----- All members --------------------------------------------------------------------

  lemma {:induction false} AcceptsTyped(ms: seq<Member>)
    ensures DecodeKnown(ms).Some? <==> AllTyped(ms)
  {
    if ms != [] {
      var n := |ms| - 1;
      AcceptsTyped(ms[..n]);
      assert forall i :: 0 <= i < n ==> ms[..n][i] == ms[i];
      if DecodeKnown(ms[..n]).Some? && !ms[n].name.Foreign? {
        StoreAccepts(DecodeKnown(ms[..n]).value, ms[n].name.field, ms[n].value);
      }
    }
  }

  lemma {:induction false} ZeroUndecided(ms: seq<Member>, field: Field)
    requires DecodeKnown(ms).Some? && Undecided(ms, field)
    ensures FieldZero(DecodeKnown(ms).value, field)
  {
    if ms != [] {
      var n := |ms| - 1;
      assert forall i :: 0 <= i < n ==> ms[..n][i] == ms[i];
      ZeroUndecided(ms[..n], field);
      if !ms[n].name.Foreign? { StoreKeeps(DecodeKnown(ms[..n]).value, ms[n], field); }
    }
  }

  lemma {:induction false} LastDecides(ms: seq<Member>, field: Field, i: nat)
    requires DecodeKnown(ms).Some? && LastAt(ms, field, i)
    ensures DecodeKnown(ms[..i]).Some?
    ensures FieldDecoded(DecodeKnown(ms).value, DecodeKnown(ms[..i]).value, field, ms[i].value)
  {
    var n := |ms| - 1;
    if i == n {
      StoreDecodes(DecodeKnown(ms[..n]).value, ms[n], field);
    } else {
      assert ms[..n][..i] == ms[..i];
      LastDecides(ms[..n], field, i);
      if !ms[n].name.Foreign? {
        StoreKeeps(DecodeKnown(ms[..n]).value, ms[n], field);
        SameDecoded(DecodeKnown(ms[..n]).value, DecodeKnown(ms).value, DecodeKnown(ms[..i]).value, field, ms[i].value);
      }
    }
  }

  /**
   `json.Unmarshal` into the wire structure, for every document: it fails exactly if a member that
   matches a field has the wrong type; each field comes from the last member that decides it, and is
   zero without one.
   */
  lemma DecodesExactly(ms: seq<Member>)
    ensures DecodeKnown(ms).Some? <==> AllTyped(ms)
    ensures DecodeKnown(ms).Some? ==> forall field :: Undecided(ms, field) ==> FieldZero(DecodeKnown(ms).value, field)
    ensures DecodeKnown(ms).Some? ==> forall field, i :: LastAt(ms, field, i) ==>
              DecodeKnown(ms[..i]).Some? &&
              FieldDecoded(DecodeKnown(ms).value, DecodeKnown(ms[..i]).value, field, ms[i].value)
  {
    AcceptsTyped(ms);
    if DecodeKnown(ms).Some? {
      forall field | Undecided(ms, field) ensures FieldZero(DecodeKnown(ms).value, field) {
        ZeroUndecided(ms, field);
      }
      forall field, i | LastAt(ms, field, i)
        ensures DecodeKnown(ms[..i]).Some?
        ensures FieldDecoded(DecodeKnown(ms).value, DecodeKnown(ms[..i]).value, field, ms[i].value)
      {
        LastDecides(ms, field, i);
      }
    }
  }

  lemma {:induction false} LastExists(ms: seq<Member>, field: Field) returns (i: int)
    ensures i < 0 ==> Undecided(ms, field)
    ensures i >= 0 ==> LastAt(ms, field, i)
  {
    i := |ms| - 1;
    while i >= 0 && !Decides(ms[i], field)
      invariant -1 <= i < |ms|
      invariant forall j :: i < j < |ms| ==> !Decides(ms[j], field)
    {
      i := i - 1;
    }
  }

  // ----- Which documents are accepted ---------------------------------------------------

  /** The field ends up with a value other than null. */
  ghost predicate Given(ms: seq<Member>, field: Field) {
    exists i :: LastAt(ms, field, i) && ms[i].value != JNull
  }

  ghost predicate Has(ms: seq<Member>, name: Name) {
    exists i :: 0 <= i < |ms| && ms[i].name == name
  }

  lemma {:induction false} MapHas(ms: seq<Member>, name: Name)
    ensures name in AsMap(ms) <==> Has(ms, name)
  {
    if ms != [] {
      var n := |ms| - 1;
      MapHas(ms[..n], name);
      assert forall i :: 0 <= i < n ==> ms[..n][i] == ms[i];
      if Has(ms, name) && ms[n].name != name {
        var i :| 0 <= i < |ms| && ms[i].name == name;
        assert ms[..n][i].name == name;
      }
    }
  }

  /** The last member with this very name. */
  ghost predicate LastNamed(ms: seq<Member>, name: Name, i: int) {
    0 <= i < |ms| && ms[i].name == name && forall j :: i < j < |ms| ==> ms[j].name != name
  }

  lemma {:induction false} MapHolds(ms: seq<Member>, name: Name, i: int)
    requires LastNamed(ms, name, i)
    ensures name in AsMap(ms) && AsMap(ms)[name] == ms[i].value
  {
    var n := |ms| - 1;
    if i < n {
      MapHolds(ms[..n], name, i);
    }
  }

  lemma PayloadGiven(ms: seq<Member>)
    requires DecodeKnown(ms).Some?
    ensures DecodeKnown(ms).value.payload.Valid? || DecodeKnown(ms).value.payload.Nil?
    ensures Given(ms, Payload) <==>
              DecodeKnown(ms).value.payload.Valid? && DecodeKnown(ms).value.payload.value != JNull
  {
    var i := LastExists(ms, Payload);
    if i < 0 { ZeroUndecided(ms, Payload); } else { LastDecides(ms, Payload, i); }
  }

  lemma SchemaGiven(ms: seq<Member>)
    requires DecodeKnown(ms).Some?
    ensures Given(ms, PayloadSchema) <==> DecodeKnown(ms).value.payloadSchema.Some?
  {
    var i := LastExists(ms, PayloadSchema);
    if i < 0 { ZeroUndecided(ms, PayloadSchema); } else { LastDecides(ms, PayloadSchema, i); }
  }

  /**
   A document is accepted exactly if it is an object whose matching members all have the right type,
   that has `producer` and `kind` under these very names, and whose payload, if it ends up being
   something other than null, comes with a schema that does too.
   */
  lemma AcceptedExactly(doc: Document)
    ensures Unmarshalled(doc).Some? <==>
              && doc.Object?
              && AllTyped(doc.members)
              && Has(doc.members, Exact(Producer))
              && Has(doc.members, Exact(Kind))
              && (Given(doc.members, Payload) ==> Given(doc.members, PayloadSchema))
  {
    if doc.Object? {
      AcceptsTyped(doc.members);
      MapHas(doc.members, Exact(Producer));
      MapHas(doc.members, Exact(Kind));
      if DecodeKnown(doc.members).Some? {
        PayloadGiven(doc.members);
        SchemaGiven(doc.members);
      }
    }
  }

  /** `Extra` holds every member without a known name, with the last value given under that name. */
  lemma ExtraExactly(ms: seq<Member>, c: Data)
    requires Unmarshalled(Object(ms)) == Some(c)
    ensures forall name :: name in c.extra <==> !name.Exact? && Has(ms, name)
    ensures forall name: Name, i :: !name.Exact? && LastNamed(ms, name, i) ==>
              name in c.extra && c.extra[name] == Valid(ms[i].value)
  {
    forall name ensures name in c.extra <==> !name.Exact? && Has(ms, name) {
      MapHas(ms, name);
    }
    forall name: Name, i | !name.Exact? && LastNamed(ms, name, i)
      ensures name in c.extra && c.extra[name] == Valid(ms[i].value)
    {
      MapHolds(ms, name, i);
    }
  }
}
