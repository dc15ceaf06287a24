/** Encoding and decoding of contributions undo each other, as far as case folding lets them. */
module ContributionTheorems {
  import opened Prelude
  import opened Contribution
  import opened ContributionDecoding

  // ----- Documents as listings of a map -------------------------------------------------

  ghost predicate DistinctNames(ms: seq<Member>) {
    forall i, j :: 0 <= i < j < |ms| ==> ms[i].name != ms[j].name
  }

  /** `ms` lists the members of `m`, each once, in some order. */
  ghost predicate Lists(ms: seq<Member>, m: map<Name, Json>) {
    DistinctNames(ms) && AsMap(ms) == m
  }

  lemma {:induction false} ListingExists(m: map<Name, Json>) returns (ms: seq<Member>)
    ensures Lists(ms, m)
    decreases |m|
  {
    if m == map[] {
      ms := [];
    } else {
      var name :| name in m;
      var rest := m - {name};
      assert m.Keys == rest.Keys + {name};
      var front := ListingExists(rest);
      ms := front + [Member(name, m[name])];
      assert ms[..|ms| - 1] == front;
      MapHas(front, name);
      assert AsMap(ms) == m;
    }
  }

  /** No name folds to a known one without being it. */
  ghost predicate NoFoldClash(names: set<Name>) {
    forall name :: name in names ==> !name.Variant?
  }

  // ----- Decoding a listing without clash -----------------------------------------------

  function Text(v: Option<Json>): Option<string> {
    if v.Some? && v.value.JString? then Some(v.value.text) else None
  }

  function TextOrEmpty(v: Option<Json>): string {
    if Text(v).Some? then Text(v).value else ""
  }

  function Count(v: Option<Json>): Option<nat> {
    if v.Some? && v.value.JNumber? && v.value.number >= 0 then Some(v.value.number) else None
  }

  function StructAt(m: map<Name, Json>, field: Field): Option<Struct> {
    var v := At(m, field);
    if v.Some? && v.value.JObject? && field in v.value.patches then Some(v.value.patches[field].given) else None
  }

  /** The known fields of a map, each from the member of its own name. */
  function Target(m: map<Name, Json>): Wire {
    Wire(Text(At(m, Id)), Count(At(m, Sequence)), TextOrEmpty(At(m, Producer)), TextOrEmpty(At(m, Kind)),
         At(m, Applied) == Some(JBool(true)),
         StructAt(m, ModelTransition), StructAt(m, TokenImpact), StructAt(m, PayloadSchema),
         if At(m, Payload).Some? then Valid(At(m, Payload).value) else Nil)
  }

  ghost predicate WellTyped(m: map<Name, Json>) {
    forall name :: name in m && name.Exact? ==> Typed(Member(name, m[name]))
  }

  /** Each member of a listing is the value that the map holds under its name. */
  lemma ListedOnce(ms: seq<Member>, i: nat)
    requires DistinctNames(ms) && i < |ms|
    ensures ms[i].name in AsMap(ms) && AsMap(ms)[ms[i].name] == ms[i].value
  {
    assert LastNamed(ms, ms[i].name, i);
    MapHolds(ms, ms[i].name, i);
  }

  lemma TypedListing(ms: seq<Member>)
    requires DistinctNames(ms) && NoFoldClash(AsMap(ms).Keys) && WellTyped(AsMap(ms))
    ensures AllTyped(ms)
  {
    forall i | 0 <= i < |ms| ensures Typed(ms[i]) {
      ListedOnce(ms, i);
      if ms[i].name.Exact? { assert Typed(Member(ms[i].name, AsMap(ms)[ms[i].name])); }
    }
  }

  lemma {:induction false} ValueOfName(ms: seq<Member>, name: Name) returns (i: nat)
    requires name in AsMap(ms)
    ensures i < |ms| && ms[i] == Member(name, AsMap(ms)[name])
  {
    i := |ms| - 1;
    if ms[i].name != name {
      i := ValueOfName(ms[..i], name);
    }
  }

  lemma NoVariant(ms: seq<Member>, i: nat)
    requires DistinctNames(ms) && NoFoldClash(AsMap(ms).Keys) && i < |ms|
    ensures !ms[i].name.Variant?
  {
    ListedOnce(ms, i);
  }

  /** Without a deciding member the map holds nothing, or a null that leaves the zero value. */
  lemma UndecidedAt(ms: seq<Member>, field: Field)
    requires Undecided(ms, field)
    ensures At(AsMap(ms), field) == None || (At(AsMap(ms), field) == Some(JNull) && field in {Producer, Kind, Applied})
  {
    if Exact(field) in AsMap(ms) {
      var i := ValueOfName(ms, Exact(field));
      assert !Decides(ms[i], field);
    }
  }

  lemma ZeroIsTarget(m: map<Name, Json>, w: Wire, field: Field)
    requires FieldZero(w, field)
    requires At(m, field) == None || (At(m, field) == Some(JNull) && field in {Producer, Kind, Applied})
    ensures Same(field, w, Target(m))
  {
  }

  lemma FirstStruct(data: Option<Struct>, p: Patch)
    requires Merged(data, None, p)
    ensures data == Some(p.given)
  {
    assert data.value == p.given;
  }

  lemma DecodedIsTarget(m: map<Name, Json>, w: Wire, present: Wire, field: Field, v: Json)
    requires At(m, field) == Some(v) && FieldZero(present, field) && FieldDecoded(w, present, field, v)
    ensures Same(field, w, Target(m))
  {
    if v.JObject? && field in v.patches {
      match field
      case ModelTransition => FirstStruct(w.modelTransition, v.patches[field]);
      case TokenImpact => FirstStruct(w.tokenImpact, v.patches[field]);
      case PayloadSchema => FirstStruct(w.payloadSchema, v.patches[field]);
      case _ =>
    }
  }

  lemma FieldIsTarget(ms: seq<Member>, field: Field)
    requires DistinctNames(ms) && NoFoldClash(AsMap(ms).Keys) && DecodeKnown(ms).Some?
    ensures Same(field, DecodeKnown(ms).value, Target(AsMap(ms)))
  {
    var i := LastExists(ms, field);
    if i < 0 {
      ZeroUndecided(ms, field);
      UndecidedAt(ms, field);
      ZeroIsTarget(AsMap(ms), DecodeKnown(ms).value, field);
    } else {
      LastDecides(ms, field, i);
      NoVariant(ms, i);
      ListedOnce(ms, i);
      forall j | 0 <= j < i ensures !Decides(ms[..i][j], field) {
        NoVariant(ms, j);
      }
      ZeroUndecided(ms[..i], field);
      DecodedIsTarget(AsMap(ms), DecodeKnown(ms).value, DecodeKnown(ms[..i]).value, field, ms[i].value);
    }
  }

  lemma GivenIs(ms: seq<Member>, field: Field)
    requires DistinctNames(ms) && NoFoldClash(AsMap(ms).Keys) && (field.Payload? || field.PayloadSchema?)
    ensures Given(ms, field) <==> Exact(field) in AsMap(ms) && AsMap(ms)[Exact(field)] != JNull
  {
    if Given(ms, field) {
      var i :| LastAt(ms, field, i) && ms[i].value != JNull;
      NoVariant(ms, i);
      ListedOnce(ms, i);
    }
    if Exact(field) in AsMap(ms) {
      var i := ValueOfName(ms, Exact(field));
      forall j | i < j < |ms| ensures !Decides(ms[j], field) {
        NoVariant(ms, j);
      }
      assert LastAt(ms, field, i);
    }
  }

  lemma SameEverywhere(w: Wire, w': Wire)
    requires forall field :: Same(field, w, w')
    ensures w == w'
  {
    assert Same(Id, w, w') && Same(Sequence, w, w') && Same(Producer, w, w') && Same(Kind, w, w');
    assert Same(Applied, w, w') && Same(ModelTransition, w, w') && Same(TokenImpact, w, w');
    assert Same(PayloadSchema, w, w') && Same(Payload, w, w');
  }

  /** Without clash, every known field comes from the member of its own name. */
  lemma DecodeIsTarget(ms: seq<Member>)
    requires DistinctNames(ms) && NoFoldClash(AsMap(ms).Keys) && WellTyped(AsMap(ms))
    ensures DecodeKnown(ms) == Some(Target(AsMap(ms)))
  {
    TypedListing(ms);
    AcceptsTyped(ms);
    forall field ensures Same(field, DecodeKnown(ms).value, Target(AsMap(ms))) {
      FieldIsTarget(ms, field);
    }
    SameEverywhere(DecodeKnown(ms).value, Target(AsMap(ms)));
  }

  /**
   A well-typed document that names every member once, and none by folding, is refused exactly if it has
   no `producer` or no `kind`, or a payload other than null without a schema other than null.
   */
  lemma PlainDocument(ms: seq<Member>)
    requires DistinctNames(ms) && NoFoldClash(AsMap(ms).Keys) && WellTyped(AsMap(ms))
    ensures Unmarshalled(Object(ms)).None? <==>
              var m := AsMap(ms);
              || Exact(Producer) !in m
              || Exact(Kind) !in m
              || (Exact(Payload) in m && m[Exact(Payload)] != JNull &&
                  !(Exact(PayloadSchema) in m && m[Exact(PayloadSchema)] != JNull))
    ensures Unmarshalled(Object(ms)).Some? ==> Unmarshalled(Object(ms)).value.wire == Target(AsMap(ms))
  {
    DecodeIsTarget(ms);
    GivenIs(ms, Payload);
    GivenIs(ms, PayloadSchema);
    MapHas(ms, Exact(Producer));
    MapHas(ms, Exact(Kind));
    TypedListing(ms);
    AcceptedExactly(Object(ms));
  }

  // ----- Encode, then decode ------------------------------------------------------------

  /** A contribution without known names in `Extra`, and with raw messages as decoding leaves them. */
  function Normal(c: Data): Data {
    Data(c.wire.(payload := if c.wire.payload.Valid? then c.wire.payload else Nil),
         map name | name in c.extra && !name.Exact? ::
           Valid(if c.extra[name].Valid? then c.extra[name].value else JNull))
  }

  lemma KeepsPayloadRule(c: Data)
    requires Marshals(c)
    ensures HasPayload(Normal(c).wire.payload) ==> Normal(c).wire.payloadSchema.Some?
  {
  }

  lemma KnownTyped(w: Wire, field: Field)
    requires ValidWire(w) && KnownValue(w, field).Some?
    ensures Fits(field, KnownValue(w, field).value)
  {
  }

  lemma KnownTarget(m: map<Name, Json>, w: Wire)
    requires forall field :: At(m, field) == KnownValue(w, field)
    ensures Target(m) == w.(payload := if w.payload.Valid? then w.payload else Nil)
  {
  }

  lemma KnownWellTyped(m: map<Name, Json>, w: Wire)
    requires ValidWire(w) && forall field :: At(m, field) == KnownValue(w, field)
    ensures WellTyped(m)
  {
    forall name | name in m && name.Exact? ensures Typed(Member(name, m[name])) {
      assert At(m, name.field) == Some(m[name]);
      KnownTyped(w, name.field);
    }
  }

  lemma MarshalledTyped(c: Data)
    requires Marshals(c) && ValidWire(c.wire)
    ensures WellTyped(Marshalled(c)) && Target(Marshalled(c)) == Normal(c).wire
  {
    var m := Marshalled(c);
    forall field: Field ensures At(m, field) == KnownValue(c.wire, field) {
      ExtraNeverOverrides(c, field);
    }
    KnownWellTyped(m, c.wire);
    KnownTarget(m, c.wire);
  }

  lemma ExtraKept(c: Data)
    requires Marshals(c)
    ensures Others(Marshalled(c)) == Normal(c).extra
  {
    forall name ensures name in KNOWN <==> name.Exact? {
      KnownIsExact(name);
    }
  }

  /**
   Decoding an encoded contribution gives it back with `Extra` stripped of known names, in whatever
   order the members were written, provided that no unknown name folds to a known one.
   */
  lemma RoundTrip(c: Data, ms: seq<Member>)
    requires Marshals(c) && ValidWire(c.wire) && Lists(ms, Marshalled(c)) && NoFoldClash(Unknown(c.extra).Keys)
    ensures Unmarshalled(Object(ms)) == Some(Normal(c))
  {
    MarshalledTyped(c);
    ExtraKept(c);
    assert NoFoldClash(Marshalled(c).Keys) by {
      assert forall name :: name in Marshalled(c) && name.Variant? ==> name in Others(Marshalled(c));
    }
    DecodeIsTarget(ms);
    ExtraNeverOverrides(c, Producer);
    ExtraNeverOverrides(c, Kind);
    KeepsPayloadRule(c);
  }

  // ----- Exactly which extra names are safe ---------------------------------------------

  /** Every contribution whose unknown extra names are `names` survives, in every written order. */
  ghost predicate AlwaysRoundTrips(names: set<Name>) {
    forall c, ms :: Marshals(c) && ValidWire(c.wire) && Unknown(c.extra).Keys == names && Lists(ms, Marshalled(c)) ==>
      Unmarshalled(Object(ms)) == Some(Normal(c))
  }

  /** An empty contribution with one extra member `-1` under `name` and nil messages under the other names. */
  function Stray(names: set<Name>, name: Name): Data {
    Data(ZERO, map n | n in names :: if n == name then Valid(JNumber(-1)) else Nil)
  }

  lemma StrayIsWritten(names: set<Name>, name: Name)
    requires name in names && forall n :: n in names ==> !n.Exact?
    ensures Marshals(Stray(names, name)) && Unknown(Stray(names, name).extra).Keys == names
    ensures name in Marshalled(Stray(names, name)) && Marshalled(Stray(names, name))[name] == JNumber(-1)
  {
    var c := Stray(names, name);
    assert Unknown(c.extra) == c.extra;
    KnownIsExact(name);
  }

  lemma {:induction false} MismatchFails(ms: seq<Member>, i: nat)
    requires i < |ms| && !ms[i].name.Foreign? && ms[i].name.field != Payload && ms[i].value == JNumber(-1)
    ensures DecodeKnown(ms).None?
  {
    if i < |ms| - 1 {
      MismatchFails(ms[..|ms| - 1], i);
    }
  }

  lemma {:induction false} PayloadSticks(ms: seq<Member>, i: nat)
    requires i < |ms| && !ms[i].name.Foreign? && ms[i].name.field == Payload && DecodeKnown(ms).Some?
    ensures DecodeKnown(ms).value.payload.Valid?
  {
    if i < |ms| - 1 {
      PayloadSticks(ms[..|ms| - 1], i);
    }
  }

  /** A name that folds to a known one loses some contribution, whatever the other names and the written order. */
  lemma FoldedNameLoses(names: set<Name>, name: Name, ms: seq<Member>)
    requires name in names && name.Variant? && forall n :: n in names ==> !n.Exact?
    requires Marshals(Stray(names, name)) && Lists(ms, Marshalled(Stray(names, name)))
    ensures Unmarshalled(Object(ms)) != Some(Normal(Stray(names, name)))
  {
    StrayIsWritten(names, name);
    var i := ValueOfName(ms, name);
    if name.field != Payload {
      MismatchFails(ms, i);
    } else if DecodeKnown(ms).Some? {
      PayloadSticks(ms, i);
    }
  }

  /** Encoding then decoding is lossless for a set of extra names exactly when none folds to a known name. */
  lemma RoundTripExactly(names: set<Name>)
    requires forall n :: n in names ==> !n.Exact?
    ensures AlwaysRoundTrips(names) <==> NoFoldClash(names)
  {
    if NoFoldClash(names) {
      forall c, ms | Marshals(c) && ValidWire(c.wire) && Unknown(c.extra).Keys == names && Lists(ms, Marshalled(c))
        ensures Unmarshalled(Object(ms)) == Some(Normal(c))
      {
        RoundTrip(c, ms);
      }
    } else {
      var name :| name in names && name.Variant?;
      StrayIsWritten(names, name);
      var ms := ListingExists(Marshalled(Stray(names, name)));
      FoldedNameLoses(names, name, ms);
    }
  }

  // ----- Decode, then encode ------------------------------------------------------------

  lemma {:induction false} DecodedWire(ms: seq<Member>)
    requires DecodeKnown(ms).Some?
    ensures ValidWire(DecodeKnown(ms).value)
    ensures DecodeKnown(ms).value.payload.Nil? || DecodeKnown(ms).value.payload.Valid?
  {
    if ms != [] {
      DecodedWire(ms[..|ms| - 1]);
    }
  }

  /** Whatever decodes can be encoded again, and every unknown member is written with its last value. */
  lemma UnknownMembersSurvive(ms: seq<Member>, c: Data)
    requires Unmarshalled(Object(ms)) == Some(c)
    ensures Marshals(c) && ValidWire(c.wire) && Normal(c) == c
    ensures forall name: Name :: !name.Exact? ==> (name in Marshalled(c) <==> name in AsMap(ms))
    ensures forall name: Name :: !name.Exact? && name in AsMap(ms) ==> Marshalled(c)[name] == AsMap(ms)[name]
  {
    DecodedWire(ms);
    assert Unknown(c.extra) == c.extra == Others(AsMap(ms));
    ExtraKept(c);
    assert Others(Marshalled(c)) == Others(AsMap(ms));
    forall name: Name | !name.Exact?
      ensures name in Marshalled(c) <==> name in AsMap(ms)
      ensures name in AsMap(ms) ==> Marshalled(c)[name] == AsMap(ms)[name]
    {
      assert name in Others(AsMap(ms)) <==> name in AsMap(ms);
      assert name in Others(Marshalled(c)) <==> name in Marshalled(c);
    }
  }

  /** A decoded contribution is a fixed point of encoding and decoding. */
  lemma DecodedIsStable(ms: seq<Member>, again: seq<Member>, c: Data)
    requires Unmarshalled(Object(ms)) == Some(c) && Marshals(c) && Lists(again, Marshalled(c))
    requires NoFoldClash(AsMap(ms).Keys)
    ensures Unmarshalled(Object(again)) == Some(c)
  {
    UnknownMembersSurvive(ms, c);
    RoundTrip(c, again);
  }
}
