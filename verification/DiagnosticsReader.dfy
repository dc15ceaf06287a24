/** The Go diagnostics reader's early length checks (`go/nemo_relay/diagnostics.go`). */
module DiagnosticsReader {
  import opened Prelude
  import opened Decimal
  import JsonText

  // ----- Go strings ---------------------------------------------------------------------

  /** A Go string is decoded rune by rune; a byte that is not part of valid UTF-8 stands alone. */
  datatype Unit = Rune(c: CodePoint) | InvalidByte

  type GoString = seq<Unit>

  /** `len(s)` */
  function Len(s: GoString): nat {
    if s == [] then 0 else (if s[0].Rune? then Width(s[0].c) else 1) + Len(s[1..])
  }

  /** The text that survives JSON: an invalid byte becomes U+FFFD. */
  function Meaning(s: GoString): Text {
    if s == [] then [] else [if s[0].Rune? then s[0].c else 0xFFFD] + Meaning(s[1..])
  }

  /** How `encoding/json` writes one unit inside a string, with HTML escaping. */
  function Escaped(u: Unit): Text {
    match u
    case InvalidByte => [92, 117] + JsonText.Hex4(0xFFFD)
    case Rune(c) =>
      if JsonText.ShortEscape(c) != 0 then [92, JsonText.ShortEscape(c)]
      else if c < 32 || c in {38, 60, 62, 0x2028, 0x2029} then [92, 117] + JsonText.Hex4(c)
      else [c]
  }

  /**
   Quotes, backslashes and five control characters take two characters; invalid bytes, the other control
   characters, and what could end a script or an HTML attribute take six; all other runes stand for
   themselves.
   */
  lemma EscapesExactly(u: Unit)
    ensures |Escaped(u)| == 2 <==> u.Rune? && u.c in {8, 9, 10, 12, 13, 34, 92}
    ensures |Escaped(u)| == 6 <==>
              || u.InvalidByte?
              || (u.c < 32 && u.c !in {8, 9, 10, 12, 13})
              || u.c in {'&' as int, '<' as int, '>' as int, 0x2028, 0x2029}
    ensures |Escaped(u)| !in {2, 6} ==> u.Rune? && Escaped(u) == [u.c]
  {
  }

  function EscapedAll(s: GoString): Text {
    if s == [] then [] else Escaped(s[0]) + EscapedAll(s[1..])
  }

  function Quoted(s: GoString): Text {
    [34] + EscapedAll(s) + [34]
  }

  lemma UnitBytes(u: Unit)
    ensures Bytes(Escaped(u)) >= if u.Rune? then Width(u.c) else 1
  {
    BytesAtLeast(Escaped(u));
  }

  /** Reading a six-character escape gives the code point of its four digits. */
  lemma HexEscapeReads(c: CodePoint, x: Text)
    requires c < 0x10000 && !JsonText.Surrogate(c)
    ensures JsonText.ReadCharacter([92, 117] + JsonText.Hex4(c) + x) == Some((c, x))
  {
    var t := [92, 117] + JsonText.Hex4(c) + x;
    JsonText.HexReads(c, x);
    assert t[0] == 92 && t[1] == 117 && t[2..] == JsonText.Hex4(c) + x && t[6..] == x;
  }

  lemma UnitReads(u: Unit, x: Text)
    ensures JsonText.ReadCharacter(Escaped(u) + x) == Some((if u.Rune? then u.c else 0xFFFD, x))
    ensures (Escaped(u) + x)[0] != 34
  {
    var t := Escaped(u) + x;
    if |Escaped(u)| == 2 {
      assert t[0] == 92 && t[1] == Escaped(u)[1] && t[2..] == x;
    } else if |Escaped(u)| == 6 {
      HexEscapeReads(if u.Rune? then u.c else 0xFFFD, x);
    } else {
      assert t[0] == u.c && t[1..] == x;
    }
  }

  /** The contents of a string with its closing quote and what follows. */
  function Closed(s: GoString, after: Text): Text {
    EscapedAll(s) + ([34] + after)
  }

  lemma {:induction false} RestReads(s: GoString, x: Text)
    ensures JsonText.ReadRest(Closed(s, x)) == Some((Meaning(s), x))
    decreases |s|
  {
    if s == [] {
      assert Closed(s, x) == [34] + x && ([34] + x)[1..] == x;
    } else {
      JsonText.Assoc(Escaped(s[0]), EscapedAll(s[1..]), [34] + x);
      assert Closed(s, x) == Escaped(s[0]) + Closed(s[1..], x);
      UnitReads(s[0], Closed(s[1..], x));
      RestReads(s[1..], x);
    }
  }

  /** Reading a written string gives its text. */
  lemma StringReads(s: GoString, x: Text)
    ensures JsonText.ReadString(Quoted(s) + x) == Some((Meaning(s), x))
  {
    assert Quoted(s) + x == [34] + Closed(s, x);
    assert ([34] + Closed(s, x))[1..] == Closed(s, x);
    RestReads(s, x);
  }

  lemma {:induction false} EscapedBytes(s: GoString)
    ensures Bytes(EscapedAll(s)) >= Len(s)
  {
    if s != [] {
      BytesOfConcat(Escaped(s[0]), EscapedAll(s[1..]));
      UnitBytes(s[0]);
      EscapedBytes(s[1..]);
    }
  }

  // ----- json.Marshal -------------------------------------------------------------------

  /** The members of a query, its ownership filter and its cursor. */
  datatype Key =
    | SubscriberInstanceId | PluginInstanceId | ConfigurationId | Responsibility
    | SourceInstanceId | Sequence | ComponentOffset | EventOffset | Scope
    | SchemaVersion | ComponentKey | ComponentInstanceId | OriginGeneration | Code | Domain | PluginFamily
    | FailureClass | OwnershipKey | AfterSequence | MaxComponents | MaxEvents | MaxResponseBytes | ContinuationKey

  type Spelling = Key -> Text

  /** The member names that the struct tags give. */
  function Tag(key: Key): string {
    match key
    case SubscriberInstanceId => "subscriber_instance_id"
    case PluginInstanceId => "plugin_instance_id"
    case ConfigurationId => "configuration_id"
    case Responsibility => "responsibility"
    case SourceInstanceId => "source_instance_id"
    case Sequence => "sequence"
    case ComponentOffset => "component_offset"
    case EventOffset => "event_offset"
    case Scope => "scope"
    case SchemaVersion => "schema_version"
    case ComponentKey => "component_key"
    case ComponentInstanceId => "component_instance_id"
    case OriginGeneration => "origin_generation"
    case Code => "code"
    case Domain => "domain"
    case PluginFamily => "plugin_family"
    case FailureClass => "failure_class"
    case OwnershipKey => "ownership"
    case AfterSequence => "after_sequence"
    case MaxComponents => "max_components"
    case MaxEvents => "max_events"
    case MaxResponseBytes => "max_response_bytes"
    case ContinuationKey => "continuation"
  }

  function Spelled(key: Key): Text {
    Lit(Tag(key))
  }

  /** A Go value as `json.Marshal` sees it; a `DiagnosticNumber` is written as a quoted numeral. */
  datatype Value =
    | Nil
    | Plain(text: GoString)
    | Count(n: nat)
    | Number(u64: nat)
    | Struct(fields: Fields)

  /** The fields of a struct that are written, in order. */
  datatype Fields = NoFields | Field(key: Key, value: Value, rest: Fields)

  function Written(v: Value, spell: Spelling): Text {
    match v
    case Nil => [110, 117, 108, 108]
    case Plain(s) => Quoted(s)
    case Count(n) => Print(n)
    case Number(n) => JsonText.Quoted(Print(n))
    case Struct(fs) => [123] + WrittenFields(fs, spell) + [125]
  }

  function WrittenFields(fs: Fields, spell: Spelling): Text {
    match fs
    case NoFields => []
    case Field(key, value, rest) =>
      JsonText.Quoted(spell(key)) + [58] + Written(value, spell)
      + (if rest.NoFields? then [] else [44] + WrittenFields(rest, spell))
  }

  /** The JSON value that a Go value stands for. */
  function AsJson(v: Value, spell: Spelling): JsonText.Json {
    match v
    case Nil => JsonText.JNull
    case Plain(s) => JsonText.JString(Meaning(s))
    case Count(n) => JsonText.JInt(n)
    case Number(n) => JsonText.JString(Print(n))
    case Struct(fs) => JsonText.JObject(AsMembers(fs, spell))
  }

  function AsMembers(fs: Fields, spell: Spelling): JsonText.Members {
    match fs
    case NoFields => JsonText.NoMembers
    case Field(key, value, rest) => JsonText.Member(spell(key), AsJson(value, spell), AsMembers(rest, spell))
  }

  // ----- Reading undoes writing ---------------------------------------------------------

  /** Fields with the closing brace and what follows. */
  function Inner(fs: Fields, spell: Spelling, after: Text): Text {
    WrittenFields(fs, spell) + ([125] + after)
  }

  function Next(fs: Fields, spell: Spelling, after: Text): Text {
    if fs.NoFields? then [125] + after else [44] + Inner(fs, spell, after)
  }

  lemma InnerStep(fs: Fields, spell: Spelling, after: Text)
    requires fs.Field?
    ensures Inner(fs, spell, after)
         == JsonText.Quoted(spell(fs.key)) + ([58] + (Written(fs.value, spell) + Next(fs.rest, spell, after)))
  {
    var name, value := JsonText.Quoted(spell(fs.key)), Written(fs.value, spell);
    var tail := if fs.rest.NoFields? then [] else [44] + WrittenFields(fs.rest, spell);
    var end := [125] + after;
    assert tail + end == Next(fs.rest, spell, after) by {
      if fs.rest.Field? { JsonText.Assoc([44], WrittenFields(fs.rest, spell), end); }
    }
    JsonText.Flatten(name, [58], value, tail, end);
  }

  lemma PlainReads(s: GoString, x: Text)
    ensures JsonText.Read(Quoted(s) + x) == Some((JsonText.JString(Meaning(s)), x))
  {
    StringReads(s, x);
    assert (Quoted(s) + x)[0] == 34;
  }

  lemma {:induction false} ValueReads(v: Value, spell: Spelling, x: Text)
    requires JsonText.Delimited(x)
    ensures JsonText.Read(Written(v, spell) + x) == Some((AsJson(v, spell), x))
    decreases v, 1
  {
    match v {
      case Nil => JsonText.WordsRead(x);
      case Plain(s) => PlainReads(s, x);
      case Count(n) => JsonText.NumberReads(n, x);
      case Number(n) => JsonText.TextReads(Print(n), x);
      case Struct(fs) =>
        JsonText.Assoc([123] + WrittenFields(fs, spell), [125], x);
        JsonText.Assoc([123], WrittenFields(fs, spell), [125] + x);
        JsonText.BraceReads(Inner(fs, spell, x));
        StructReads(fs, spell, x);
    }
  }

  lemma {:induction false} StructReads(fs: Fields, spell: Spelling, x: Text)
    ensures JsonText.ReadObject(Inner(fs, spell, x)) == Some((JsonText.JObject(AsMembers(fs, spell)), x))
    decreases fs, 1
  {
    if fs.NoFields? {
      assert Inner(fs, spell, x) == [125] + x && ([125] + x)[1..] == x;
    } else {
      FieldsRead(fs, spell, x);
      InnerStep(fs, spell, x);
      assert Inner(fs, spell, x)[0] == JsonText.Quoted(spell(fs.key))[0];
    }
  }

  lemma {:induction false} FieldsRead(fs: Fields, spell: Spelling, x: Text)
    requires fs.Field?
    ensures JsonText.ReadMembers(Inner(fs, spell, x)) == Some((AsMembers(fs, spell), x))
    decreases fs, 0
  {
    InnerStep(fs, spell, x);
    var next := Next(fs.rest, spell, x);
    var value := Written(fs.value, spell) + next;
    JsonText.StringReads(spell(fs.key), [58] + value);
    assert ([58] + value)[1..] == value;
    ValueReads(fs.value, spell, next);
    if fs.rest.NoFields? {
      assert next[1..] == x;
    } else {
      assert next[1..] == Inner(fs.rest, spell, x);
      FieldsRead(fs.rest, spell, x);
    }
  }

  // ----- Every value is covered by the encoding -----------------------------------------

  /** The first field with the key. */
  function Find(fs: Fields, key: Key): Option<Value> {
    if fs.NoFields? then None else if fs.key == key then Some(fs.value) else Find(fs.rest, key)
  }

  lemma BytesOfFields(fs: Fields, spell: Spelling)
    requires fs.Field?
    ensures Bytes(WrittenFields(fs, spell)) >= Bytes(Written(fs.value, spell))
    ensures Bytes(WrittenFields(fs, spell)) >= Bytes(WrittenFields(fs.rest, spell))
  {
    var name, value := JsonText.Quoted(spell(fs.key)), Written(fs.value, spell);
    var tail := if fs.rest.NoFields? then [] else [44] + WrittenFields(fs.rest, spell);
    BytesOfConcat(name + [58] + value, tail);
    BytesOfConcat(name + [58], value);
    BytesOfConcat([44], WrittenFields(fs.rest, spell));
  }

  lemma {:induction false} FieldsCover(fs: Fields, spell: Spelling, key: Key)
    requires Find(fs, key).Some?
    ensures Bytes(WrittenFields(fs, spell)) >= Bytes(Written(Find(fs, key).value, spell))
    decreases fs
  {
    BytesOfFields(fs, spell);
    if fs.key != key { FieldsCover(fs.rest, spell, key); }
  }

  /** A struct is written at least as long as each of its fields. */
  lemma StructCovers(fs: Fields, spell: Spelling, key: Key)
    requires Find(fs, key).Some?
    ensures Bytes(Written(Struct(fs), spell)) >= Bytes(Written(Find(fs, key).value, spell))
  {
    FieldsCover(fs, spell, key);
    BytesOfConcat([123], WrittenFields(fs, spell));
    BytesOfConcat([123] + WrittenFields(fs, spell), [125]);
  }

  lemma PlainCovers(s: GoString, spell: Spelling)
    ensures Bytes(Written(Plain(s), spell)) >= Len(s)
  {
    EscapedBytes(s);
    BytesOfConcat([34], EscapedAll(s));
    BytesOfConcat([34] + EscapedAll(s), [34]);
  }

  // ----- Queries ------------------------------------------------------------------------

  /** The records of a query, over the strings of Go or over the text that JSON carries. */
  datatype Ownership<T> = Ownership(
    subscriberInstanceId: Option<T>,
    pluginInstanceId: Option<T>,
    configurationId: Option<T>,
    responsibility: Option<T>)

  datatype Cursor<T> = Cursor(sourceInstanceId: T, sequence: nat, componentOffset: nat, eventOffset: nat, scope: nat)

  datatype Query<T> = Query(
    schemaVersion: Option<nat>,
    componentKey: Option<T>,
    componentInstanceId: Option<T>,
    originGeneration: Option<nat>,
    code: Option<T>,
    domain: Option<T>,
    pluginFamily: Option<T>,
    failureClass: Option<T>,
    ownership: Ownership<T>,
    afterSequence: Option<nat>,
    maxComponents: Option<nat>,
    maxEvents: Option<nat>,
    maxResponseBytes: Option<nat>,
    continuation: Option<Cursor<T>>)

  /** The fields of `keys` that are not left out by `omitempty`. */
  function FieldsFor(keys: seq<Key>, value: Key -> Option<Value>): Fields {
    if keys == [] then NoFields
    else if value(keys[0]).None? then FieldsFor(keys[1..], value)
    else Field(keys[0], value(keys[0]).value, FieldsFor(keys[1..], value))
  }

  function OmitText(t: Option<GoString>): Option<Value> {
    if t.None? then None else Some(Plain(t.value))
  }

  function OmitCount(n: Option<nat>): Option<Value> {
    if n.None? then None else Some(Count(n.value))
  }

  function OmitNumber(n: Option<nat>): Option<Value> {
    if n.None? then None else Some(Number(n.value))
  }

  /** A pointer without `omitempty`. */
  function Nullable(t: Option<GoString>): Option<Value> {
    Some(if t.None? then Nil else Plain(t.value))
  }

  const OWNERSHIP_KEYS := [SubscriberInstanceId, PluginInstanceId, ConfigurationId, Responsibility]

  function OwnershipField(o: Ownership<GoString>, key: Key): Option<Value> {
    match key
    case SubscriberInstanceId => Nullable(o.subscriberInstanceId)
    case PluginInstanceId => Nullable(o.pluginInstanceId)
    case ConfigurationId => Nullable(o.configurationId)
    case Responsibility => Nullable(o.responsibility)
    case _ => None
  }

  function OwnershipValue(o: Ownership<GoString>): Value {
    Struct(FieldsFor(OWNERSHIP_KEYS, key => OwnershipField(o, key)))
  }

  const CURSOR_KEYS := [SourceInstanceId, Sequence, ComponentOffset, EventOffset, Scope]

  function CursorField(c: Cursor<GoString>, key: Key): Option<Value> {
    match key
    case SourceInstanceId => Some(Plain(c.sourceInstanceId))
    case Sequence => Some(Number(c.sequence))
    case ComponentOffset => Some(Number(c.componentOffset))
    case EventOffset => Some(Number(c.eventOffset))
    case Scope => Some(Number(c.scope))
    case _ => None
  }

  function CursorValue(c: Cursor<GoString>): Value {
    Struct(FieldsFor(CURSOR_KEYS, key => CursorField(c, key)))
  }

  const QUERY_KEYS := [SchemaVersion, ComponentKey, ComponentInstanceId, OriginGeneration, Code, Domain, PluginFamily,
                       FailureClass, OwnershipKey, AfterSequence, MaxComponents, MaxEvents, MaxResponseBytes,
                       ContinuationKey]

  /** The fields of a query whose records are written as `owner` and `cursor`. */
  function QueryField(q: Query<GoString>, owner: Value, cursor: Option<Value>, key: Key): Option<Value> {
    match key
    case SchemaVersion => OmitCount(q.schemaVersion)
    case ComponentKey => OmitText(q.componentKey)
    case ComponentInstanceId => OmitText(q.componentInstanceId)
    case OriginGeneration => OmitNumber(q.originGeneration)
    case Code => OmitText(q.code)
    case Domain => OmitText(q.domain)
    case PluginFamily => OmitText(q.pluginFamily)
    case FailureClass => OmitText(q.failureClass)
    case OwnershipKey => Some(owner)
    case AfterSequence => OmitNumber(q.afterSequence)
    case MaxComponents => OmitCount(q.maxComponents)
    case MaxEvents => OmitCount(q.maxEvents)
    case MaxResponseBytes => OmitCount(q.maxResponseBytes)
    case ContinuationKey => cursor
    case _ => None
  }

  function CursorOption(q: Query<GoString>): Option<Value> {
    if q.continuation.None? then None else Some(CursorValue(q.continuation.value))
  }

  function QueryValue(q: Query<GoString>): Value {
    var owner, cursor := OwnershipValue(q.ownership), CursorOption(q);
    Struct(FieldsFor(QUERY_KEYS, key => QueryField(q, owner, cursor, key)))
  }

  /** `json.Marshal(query)` */
  function Marshal(q: Query<GoString>): Text {
    Written(QueryValue(q), Spelled)
  }

  // ----- What the native side reads -----------------------------------------------------

  /** The first member with the name. */
  function Lookup(ms: JsonText.Members, name: Text): Option<JsonText.Json> {
    if ms.NoMembers? then None else if ms.name == name then Some(ms.value) else Lookup(ms.rest, name)
  }

  /** The members of an object; anything else has none. */
  function MembersOf(j: Option<JsonText.Json>): JsonText.Members {
    if j.Some? && j.value.JObject? then j.value.members else JsonText.NoMembers
  }

  function TextOf(j: Option<JsonText.Json>): Option<Text> {
    if j.Some? && j.value.JString? then Some(j.value.text) else None
  }

  function CountOf(j: Option<JsonText.Json>): Option<nat> {
    if j.Some? && j.value.JInt? && j.value.number >= 0 then Some(j.value.number) else None
  }

  function NumberOf(j: Option<JsonText.Json>): Option<nat> {
    if j.Some? && j.value.JString? && Canonical(j.value.text) then Some(ValueOf(j.value.text)) else None
  }

  function OwnershipOf(ms: JsonText.Members, name: Spelling): Ownership<Text> {
    Ownership(
      TextOf(Lookup(ms, name(SubscriberInstanceId))),
      TextOf(Lookup(ms, name(PluginInstanceId))),
      TextOf(Lookup(ms, name(ConfigurationId))),
      TextOf(Lookup(ms, name(Responsibility))))
  }

  function Or0(n: Option<nat>): nat {
    if n.Some? then n.value else 0
  }

  function CursorOf(ms: JsonText.Members, name: Spelling): Option<Cursor<Text>> {
    var source := TextOf(Lookup(ms, name(SourceInstanceId)));
    if source.None? then None
    else Some(Cursor(source.value, Or0(NumberOf(Lookup(ms, name(Sequence)))),
                     Or0(NumberOf(Lookup(ms, name(ComponentOffset)))),
                     Or0(NumberOf(Lookup(ms, name(EventOffset)))),
                     Or0(NumberOf(Lookup(ms, name(Scope))))))
  }

  /** The query that an object of the portable contract stands for. */
  function QueryOf(ms: JsonText.Members, name: Spelling): Query<Text> {
    Query(
      CountOf(Lookup(ms, name(SchemaVersion))),
      TextOf(Lookup(ms, name(ComponentKey))),
      TextOf(Lookup(ms, name(ComponentInstanceId))),
      NumberOf(Lookup(ms, name(OriginGeneration))),
      TextOf(Lookup(ms, name(Code))),
      TextOf(Lookup(ms, name(Domain))),
      TextOf(Lookup(ms, name(PluginFamily))),
      TextOf(Lookup(ms, name(FailureClass))),
      OwnershipOf(MembersOf(Lookup(ms, name(OwnershipKey))), name),
      NumberOf(Lookup(ms, name(AfterSequence))),
      CountOf(Lookup(ms, name(MaxComponents))),
      CountOf(Lookup(ms, name(MaxEvents))),
      CountOf(Lookup(ms, name(MaxResponseBytes))),
      CursorOf(MembersOf(Lookup(ms, name(ContinuationKey))), name))
  }

  // ----- The native side reads the query that was asked ---------------------------------

  ghost predicate Distinct(name: Spelling) {
    forall a, b :: name(a) == name(b) ==> a == b
  }

  /** What a struct with these fields shows under a key, and what its JSON shows under the name. */
  lemma {:induction false} LookupFinds(keys: seq<Key>, value: Key -> Option<Value>, name: Spelling, key: Key)
    requires Distinct(name)
    ensures Find(FieldsFor(keys, value), key) == if key in keys then value(key) else None
    ensures Lookup(AsMembers(FieldsFor(keys, value), name), name(key))
         == if key !in keys || value(key).None? then None else Some(AsJson(value(key).value, name))
  {
    if keys != [] {
      LookupFinds(keys[1..], value, name, key);
      assert key in keys <==> key == keys[0] || key in keys[1..];
    }
  }

  function Meant(t: Option<GoString>): Option<Text> {
    if t.None? then None else Some(Meaning(t.value))
  }

  /** An ownership filter as JSON carries it. */
  function MeantOwnership(o: Ownership<GoString>): Ownership<Text> {
    Ownership(Meant(o.subscriberInstanceId), Meant(o.pluginInstanceId), Meant(o.configurationId),
              Meant(o.responsibility))
  }

  function MeantCursor(c: Cursor<GoString>): Cursor<Text> {
    Cursor(Meaning(c.sourceInstanceId), c.sequence, c.componentOffset, c.eventOffset, c.scope)
  }

  /** The query as JSON carries it. */
  function MeantQuery(q: Query<GoString>): Query<Text> {
    Query(q.schemaVersion, Meant(q.componentKey), Meant(q.componentInstanceId), q.originGeneration, Meant(q.code),
          Meant(q.domain), Meant(q.pluginFamily), Meant(q.failureClass), MeantOwnership(q.ownership),
          q.afterSequence, q.maxComponents, q.maxEvents, q.maxResponseBytes,
          if q.continuation.None? then None else Some(MeantCursor(q.continuation.value)))
  }

  /** A field as JSON, unless it is left out. */
  function Carried(v: Option<Value>, name: Spelling): Option<JsonText.Json> {
    if v.None? then None else Some(AsJson(v.value, name))
  }

  /** The object shows under every name what the struct holds under the key. */
  ghost predicate Shows(ms: JsonText.Members, name: Spelling, value: Key -> Option<Value>) {
    forall key :: Lookup(ms, name(key)) == Carried(value(key), name)
  }

  lemma ShownAt(ms: JsonText.Members, name: Spelling, value: Key -> Option<Value>, key: Key)
    requires Shows(ms, name, value)
    ensures Lookup(ms, name(key)) == Carried(value(key), name)
  {
  }

  lemma StructShows(keys: seq<Key>, value: Key -> Option<Value>, name: Spelling)
    requires Distinct(name) && forall key :: key !in keys ==> value(key).None?
    ensures Shows(AsMembers(FieldsFor(keys, value), name), name, value)
  {
    forall key ensures Lookup(AsMembers(FieldsFor(keys, value), name), name(key)) == Carried(value(key), name) {
      LookupFinds(keys, value, name, key);
    }
  }

  lemma OwnershipShown(o: Ownership<GoString>, ms: JsonText.Members, name: Spelling)
    requires Shows(ms, name, key => OwnershipField(o, key))
    ensures OwnershipOf(ms, name) == MeantOwnership(o)
  {
  }

  lemma OwnershipReads(o: Ownership<GoString>, name: Spelling)
    requires Distinct(name)
    ensures AsJson(OwnershipValue(o), name).JObject?
    ensures OwnershipOf(AsJson(OwnershipValue(o), name).members, name) == MeantOwnership(o)
  {
    StructShows(OWNERSHIP_KEYS, key => OwnershipField(o, key), name);
    OwnershipShown(o, AsJson(OwnershipValue(o), name).members, name);
  }

  lemma NumeralReads(n: nat, name: Spelling)
    ensures NumberOf(Carried(Some(Number(n)), name)) == Some(n)
  {
    PrintIsCanonical(n);
  }

  lemma CursorShown(c: Cursor<GoString>, ms: JsonText.Members, name: Spelling)
    requires Shows(ms, name, key => CursorField(c, key))
    ensures CursorOf(ms, name) == Some(MeantCursor(c))
  {
    NumeralReads(c.sequence, name);
    NumeralReads(c.componentOffset, name);
    NumeralReads(c.eventOffset, name);
    NumeralReads(c.scope, name);
  }

  lemma CursorReads(c: Cursor<GoString>, name: Spelling)
    requires Distinct(name)
    ensures AsJson(CursorValue(c), name).JObject?
    ensures CursorOf(AsJson(CursorValue(c), name).members, name) == Some(MeantCursor(c))
  {
    StructShows(CURSOR_KEYS, key => CursorField(c, key), name);
    CursorShown(c, AsJson(CursorValue(c), name).members, name);
  }

  ghost predicate NamesAgree(ms: JsonText.Members, q: Query<GoString>, name: Spelling) {
    && TextOf(Lookup(ms, name(ComponentKey))) == Meant(q.componentKey)
    && TextOf(Lookup(ms, name(ComponentInstanceId))) == Meant(q.componentInstanceId)
    && TextOf(Lookup(ms, name(Code))) == Meant(q.code)
  }

  ghost predicate ClassesAgree(ms: JsonText.Members, q: Query<GoString>, name: Spelling) {
    && TextOf(Lookup(ms, name(Domain))) == Meant(q.domain)
    && TextOf(Lookup(ms, name(PluginFamily))) == Meant(q.pluginFamily)
    && TextOf(Lookup(ms, name(FailureClass))) == Meant(q.failureClass)
  }

  ghost predicate NumbersAgree(ms: JsonText.Members, q: Query<GoString>, name: Spelling) {
    && CountOf(Lookup(ms, name(SchemaVersion))) == q.schemaVersion
    && NumberOf(Lookup(ms, name(OriginGeneration))) == q.originGeneration
    && NumberOf(Lookup(ms, name(AfterSequence))) == q.afterSequence
  }

  ghost predicate LimitsAgree(ms: JsonText.Members, q: Query<GoString>, name: Spelling) {
    && CountOf(Lookup(ms, name(MaxComponents))) == q.maxComponents
    && CountOf(Lookup(ms, name(MaxEvents))) == q.maxEvents
    && CountOf(Lookup(ms, name(MaxResponseBytes))) == q.maxResponseBytes
  }

  lemma NamesShown(q: Query<GoString>, owner: Value, cursor: Option<Value>, ms: JsonText.Members, name: Spelling)
    requires Shows(ms, name, key => QueryField(q, owner, cursor, key))
    ensures NamesAgree(ms, q, name)
  {
  }

  lemma ClassesShown(q: Query<GoString>, owner: Value, cursor: Option<Value>, ms: JsonText.Members, name: Spelling)
    requires Shows(ms, name, key => QueryField(q, owner, cursor, key))
    ensures ClassesAgree(ms, q, name)
  {
  }

  lemma NumbersShown(q: Query<GoString>, owner: Value, cursor: Option<Value>, ms: JsonText.Members, name: Spelling)
    requires Shows(ms, name, key => QueryField(q, owner, cursor, key))
    ensures NumbersAgree(ms, q, name)
  {
    if q.originGeneration.Some? { NumeralReads(q.originGeneration.value, name); }
    if q.afterSequence.Some? { NumeralReads(q.afterSequence.value, name); }
  }

  lemma LimitsShown(q: Query<GoString>, owner: Value, cursor: Option<Value>, ms: JsonText.Members, name: Spelling)
    requires Shows(ms, name, key => QueryField(q, owner, cursor, key))
    ensures LimitsAgree(ms, q, name)
  {
  }

  lemma RecordsShown(q: Query<GoString>, owner: Value, cursor: Option<Value>, ms: JsonText.Members, name: Spelling)
    requires Shows(ms, name, key => QueryField(q, owner, cursor, key))
    ensures Lookup(ms, name(OwnershipKey)) == Carried(Some(owner), name)
    ensures Lookup(ms, name(ContinuationKey)) == Carried(cursor, name)
  {
    var value := key => QueryField(q, owner, cursor, key);
    ShownAt(ms, name, value, OwnershipKey);
    ShownAt(ms, name, value, ContinuationKey);
  }

  lemma Assembled(q: Query<GoString>, owner: Option<JsonText.Json>, cursor: Option<JsonText.Json>,
                  ms: JsonText.Members, name: Spelling)
    requires NamesAgree(ms, q, name) && ClassesAgree(ms, q, name)
    requires NumbersAgree(ms, q, name) && LimitsAgree(ms, q, name)
    requires Lookup(ms, name(OwnershipKey)) == owner && Lookup(ms, name(ContinuationKey)) == cursor
    requires OwnershipOf(MembersOf(owner), name) == MeantOwnership(q.ownership)
    requires CursorOf(MembersOf(cursor), name) == MeantQuery(q).continuation
    ensures QueryOf(ms, name) == MeantQuery(q)
  {
  }

  /** The records of `q` are written as `owner` and `cursor`. */
  ghost predicate RecordsRead(q: Query<GoString>, owner: Value, cursor: Option<Value>, name: Spelling) {
    && OwnershipOf(MembersOf(Carried(Some(owner), name)), name) == MeantOwnership(q.ownership)
    && CursorOf(MembersOf(Carried(cursor, name)), name) == MeantQuery(q).continuation
  }

  lemma QueryShown(q: Query<GoString>, owner: Value, cursor: Option<Value>, ms: JsonText.Members, name: Spelling)
    requires Shows(ms, name, key => QueryField(q, owner, cursor, key)) && RecordsRead(q, owner, cursor, name)
    ensures QueryOf(ms, name) == MeantQuery(q)
  {
    NamesShown(q, owner, cursor, ms, name);
    ClassesShown(q, owner, cursor, ms, name);
    NumbersShown(q, owner, cursor, ms, name);
    LimitsShown(q, owner, cursor, ms, name);
    RecordsShown(q, owner, cursor, ms, name);
    Assembled(q, Carried(Some(owner), name), Carried(cursor, name), ms, name);
  }

  lemma RecordsDo(q: Query<GoString>, name: Spelling)
    requires Distinct(name)
    ensures RecordsRead(q, OwnershipValue(q.ownership), CursorOption(q), name)
  {
    OwnershipReads(q.ownership, name);
    if q.continuation.Some? { CursorReads(q.continuation.value, name); }
  }

  lemma AllShown(q: Query<GoString>, owner: Value, cursor: Option<Value>, name: Spelling)
    requires Distinct(name) && RecordsRead(q, owner, cursor, name)
    ensures QueryOf(AsMembers(FieldsFor(QUERY_KEYS, key => QueryField(q, owner, cursor, key)), name), name)
         == MeantQuery(q)
  {
    var value := key => QueryField(q, owner, cursor, key);
    forall key | key !in QUERY_KEYS ensures value(key).None? {
      if value(key).Some? { InQuery(q, owner, cursor, key); }
    }
    StructShows(QUERY_KEYS, value, name);
    QueryShown(q, owner, cursor, AsMembers(FieldsFor(QUERY_KEYS, value), name), name);
  }

  lemma QueryReads(q: Query<GoString>, name: Spelling)
    requires Distinct(name)
    ensures QueryOf(AsMembers(QueryValue(q).fields, name), name) == MeantQuery(q)
  {
    RecordsDo(q, name);
    AllShown(q, OwnershipValue(q.ownership), CursorOption(q), name);
  }

  lemma ReadsBack(v: Value, name: Spelling, q: Query<Text>)
    requires v.Struct? && QueryOf(AsMembers(v.fields, name), name) == q
    ensures var r := JsonText.Read(Written(v, name));
            r.Some? && r.value.1 == [] && r.value.0.JObject? && QueryOf(r.value.0.members, name) == q
  {
    ValueReads(v, name, []);
    assert Written(v, name) + [] == Written(v, name);
  }

  // ----- Member names -------------------------------------------------------------------

  lemma LitInjective(a: string, b: string)
    requires Lit(a) == Lit(b)
    ensures a == b
  {
    assert |Lit(a)| == |a| && |Lit(b)| == |b|;
    forall i | 0 <= i < |a| ensures a[i] == b[i] {
      assert Lit(a)[i] == Lit(b)[i];
    }
  }

  /** The length of a tag and two of its characters tell it apart from the others. */
  function Mark(key: Key): (int, char, char) {
    match key
    case SubscriberInstanceId => (22, 's', 'b')
    case PluginInstanceId => (18, 'p', 'u')
    case ConfigurationId => (16, 'c', 'n')
    case Responsibility => (14, 'r', 's')
    case SourceInstanceId => (18, 's', 'u')
    case Sequence => (8, 's', 'q')
    case ComponentOffset => (16, 'c', 'm')
    case EventOffset => (12, 'e', 'e')
    case Scope => (5, 's', 'o')
    case SchemaVersion => (14, 's', 'h')
    case ComponentKey => (13, 'c', 'm')
    case ComponentInstanceId => (21, 'c', 'm')
    case OriginGeneration => (17, 'o', 'i')
    case Code => (4, 'c', 'd')
    case Domain => (6, 'd', 'm')
    case PluginFamily => (13, 'p', 'u')
    case FailureClass => (13, 'f', 'i')
    case OwnershipKey => (9, 'o', 'n')
    case AfterSequence => (14, 'a', 't')
    case MaxComponents => (14, 'm', 'x')
    case MaxEvents => (10, 'm', 'x')
    case MaxResponseBytes => (18, 'm', 'x')
    case ContinuationKey => (12, 'c', 'n')
  }

  lemma MarkIs(key: Key)
    ensures |Tag(key)| > 2 && Mark(key) == (|Tag(key)|, Tag(key)[0], Tag(key)[2])
  {
  }

  lemma MarksDiffer(a: Key, b: Key)
    requires Mark(a) == Mark(b)
    ensures a == b
  {
  }

  lemma TagsDiffer(a: Key, b: Key)
    requires Tag(a) == Tag(b)
    ensures a == b
  {
    MarkIs(a);
    MarkIs(b);
    MarksDiffer(a, b);
  }

  lemma SpelledDistinct()
    ensures Distinct(Spelled)
  {
    forall a, b | Spelled(a) == Spelled(b) ensures a == b {
      LitInjective(Tag(a), Tag(b));
      TagsDiffer(a, b);
    }
  }

  /** The field names of the native query, its ownership filter and its cursor. */
  function NativeName(key: Key): Text {
    Lit(match key
        case SchemaVersion => "schema_version"
        case ComponentKey => "component_key"
        case ComponentInstanceId => "component_instance_id"
        case OriginGeneration => "origin_generation"
        case Code => "code"
        case Domain => "domain"
        case PluginFamily => "plugin_family"
        case FailureClass => "failure_class"
        case OwnershipKey => "ownership"
        case AfterSequence => "after_sequence"
        case MaxComponents => "max_components"
        case MaxEvents => "max_events"
        case MaxResponseBytes => "max_response_bytes"
        case ContinuationKey => "continuation"
        case SubscriberInstanceId => "subscriber_instance_id"
        case PluginInstanceId => "plugin_instance_id"
        case ConfigurationId => "configuration_id"
        case Responsibility => "responsibility"
        case SourceInstanceId => "source_instance_id"
        case Sequence => "sequence"
        case ComponentOffset => "component_offset"
        case EventOffset => "event_offset"
        case Scope => "scope")
  }

  lemma SameName(key: Key)
    ensures NativeName(key) == Spelled(key)
  {
  }

  lemma SameOwnership(ms: JsonText.Members)
    ensures OwnershipOf(ms, NativeName) == OwnershipOf(ms, Spelled)
  {
    forall key ensures NativeName(key) == Spelled(key) { SameName(key); }
  }

  lemma SameCursor(ms: JsonText.Members)
    ensures CursorOf(ms, NativeName) == CursorOf(ms, Spelled)
  {
    forall key ensures NativeName(key) == Spelled(key) { SameName(key); }
  }

  lemma SameQuery(ms: JsonText.Members)
    ensures QueryOf(ms, NativeName) == QueryOf(ms, Spelled)
  {
    forall key ensures NativeName(key) == Spelled(key) { SameName(key); }
    SameOwnership(MembersOf(Lookup(ms, Spelled(OwnershipKey))));
    SameCursor(MembersOf(Lookup(ms, Spelled(ContinuationKey))));
  }

  /**
   The native side reads back, field by field, the query that the caller gave: with every string, up to
   bytes that are not UTF-8, and every number that was given, and nothing that was not.
   */
  lemma MarshalReads(q: Query<GoString>)
    ensures var r := JsonText.Read(Marshal(q));
            && r.Some? && r.value.1 == [] && r.value.0.JObject?
            && QueryOf(r.value.0.members, NativeName) == MeantQuery(q)
  {
    SpelledDistinct();
    QueryReads(q, Spelled);
    ReadsBack(QueryValue(q), Spelled, MeantQuery(q));
    SameQuery(JsonText.Read(Marshal(q)).value.0.members);
  }

  // ----- The early checks never refuse a query that fits --------------------------------

  predicate Long(t: Option<GoString>, max: nat) {
    t.Some? && Len(t.value) > max
  }

  predicate LongOwner(o: Ownership<GoString>, max: nat) {
    || Long(o.configurationId, max)
    || Long(o.responsibility, max)
    || Long(o.pluginInstanceId, max)
    || Long(o.subscriberInstanceId, max)
  }

  /** One of the strings that `queryJSON` measures before encoding is longer than `max`. */
  predicate TooLong(q: Query<GoString>, max: nat) {
    || Long(q.componentKey, max)
    || Long(q.componentInstanceId, max)
    || Long(q.code, max)
    || Long(q.domain, max)
    || Long(q.pluginFamily, max)
    || Long(q.failureClass, max)
    || LongOwner(q.ownership, max)
    || (q.continuation.Some? && Len(q.continuation.value.sourceInstanceId) > max)
  }

  /** The struct holds a value under `key` that is written with more than `max` bytes. */
  lemma StructIsLong(keys: seq<Key>, value: Key -> Option<Value>, key: Key, max: nat)
    requires key in keys
    requires value(key).Some? && Bytes(Written(value(key).value, Spelled)) > max
    ensures Bytes(Written(Struct(FieldsFor(keys, value)), Spelled)) > max
  {
    SpelledDistinct();
    LookupFinds(keys, value, Spelled, key);
    StructCovers(FieldsFor(keys, value), Spelled, key);
  }

  lemma LongIsLong(t: Option<GoString>, max: nat)
    requires Long(t, max)
    ensures Bytes(Written(Plain(t.value), Spelled)) > max
  {
    PlainCovers(t.value, Spelled);
  }

  lemma OwnershipIsLong(o: Ownership<GoString>, max: nat)
    requires LongOwner(o, max)
    ensures Bytes(Written(OwnershipValue(o), Spelled)) > max
  {
    var key := if Long(o.subscriberInstanceId, max) then SubscriberInstanceId
               else if Long(o.pluginInstanceId, max) then PluginInstanceId
               else if Long(o.configurationId, max) then ConfigurationId else Responsibility;
    var t := match key
      case SubscriberInstanceId => o.subscriberInstanceId
      case PluginInstanceId => o.pluginInstanceId
      case ConfigurationId => o.configurationId
      case _ => o.responsibility;
    LongIsLong(t, max);
    StructIsLong(OWNERSHIP_KEYS, k => OwnershipField(o, k), key, max);
  }

  lemma CursorIsLong(c: Cursor<GoString>, max: nat)
    requires Len(c.sourceInstanceId) > max
    ensures Bytes(Written(CursorValue(c), Spelled)) > max
  {
    PlainCovers(c.sourceInstanceId, Spelled);
    StructIsLong(CURSOR_KEYS, k => CursorField(c, k), SourceInstanceId, max);
  }

  /** One of the query's own strings is too long. */
  lemma LongText(q: Query<GoString>, max: nat) returns (key: Key, t: Option<GoString>)
    requires TooLong(q, max) && !LongOwner(q.ownership, max)
    requires q.continuation.Some? ==> Len(q.continuation.value.sourceInstanceId) <= max
    ensures Long(t, max) && forall owner, cursor :: QueryField(q, owner, cursor, key) == OmitText(t)
  {
    if Long(q.componentKey, max) { return ComponentKey, q.componentKey; }
    if Long(q.componentInstanceId, max) { return ComponentInstanceId, q.componentInstanceId; }
    if Long(q.code, max) { return Code, q.code; }
    if Long(q.domain, max) { return Domain, q.domain; }
    if Long(q.pluginFamily, max) { return PluginFamily, q.pluginFamily; }
    return FailureClass, q.failureClass;
  }

  /** The field of the query that is too long, when its records are written as `owner` and `cursor`. */
  lemma WhichIsLong(q: Query<GoString>, owner: Value, cursor: Option<Value>, max: nat) returns (key: Key)
    requires TooLong(q, max)
    requires LongOwner(q.ownership, max) ==> Bytes(Written(owner, Spelled)) > max
    requires q.continuation.Some? && Len(q.continuation.value.sourceInstanceId) > max ==>
               cursor.Some? && Bytes(Written(cursor.value, Spelled)) > max
    ensures QueryField(q, owner, cursor, key).Some?
    ensures Bytes(Written(QueryField(q, owner, cursor, key).value, Spelled)) > max
  {
    if LongOwner(q.ownership, max) { return OwnershipKey; }
    if q.continuation.Some? && Len(q.continuation.value.sourceInstanceId) > max { return ContinuationKey; }
    var t;
    key, t := LongText(q, max);
    LongIsLong(t, max);
  }

  lemma InQuery(q: Query<GoString>, owner: Value, cursor: Option<Value>, key: Key)
    requires QueryField(q, owner, cursor, key).Some?
    ensures key in QUERY_KEYS
  {
  }

  /** An encoded query is at least as long as each of its measured strings. */
  lemma LongTextLongQuery(q: Query<GoString>, max: nat)
    requires TooLong(q, max)
    ensures Bytes(Marshal(q)) > max
  {
    var owner, cursor := OwnershipValue(q.ownership), CursorOption(q);
    if LongOwner(q.ownership, max) { OwnershipIsLong(q.ownership, max); }
    if q.continuation.Some? && Len(q.continuation.value.sourceInstanceId) > max {
      CursorIsLong(q.continuation.value, max);
    }
    var key := WhichIsLong(q, owner, cursor, max);
    InQuery(q, owner, cursor, key);
    StructIsLong(QUERY_KEYS, k => QueryField(q, owner, cursor, k), key, max);
  }

  // ----- Reading ------------------------------------------------------------------------

  datatype Reader = NilReader | ClosedReader | OpenReader

  datatype Error = ReaderClosed | InvalidQuery | Native(reason: string)

  /** `read`: the whole payload is measured, then the native reader answers. */
  function Read(reader: Reader, payload: Text, max: nat, native: Text -> Result<Text, string>): Result<Text, Error> {
    if reader.NilReader? then Err(ReaderClosed)
    else if Bytes(payload) > max then Err(InvalidQuery)
    else if reader.ClosedReader? then Err(ReaderClosed)
    else match native(payload)
      case Ok(page) => Ok(page)
      case Err(reason) => Err(Native(reason))
  }

  /** The strings that are measured before encoding, in the order of the loop. */
  function Texts(q: Query<GoString>): seq<Option<GoString>> {
    [q.componentKey, q.componentInstanceId, q.code, q.domain, q.pluginFamily, q.failureClass,
     q.ownership.configurationId, q.ownership.responsibility, q.ownership.pluginInstanceId,
     q.ownership.subscriberInstanceId]
  }

  lemma TextsAreMeasured(q: Query<GoString>, max: nat)
    ensures TooLong(q, max) <==>
              || (exists i :: 0 <= i < |Texts(q)| && Long(Texts(q)[i], max))
              || (q.continuation.Some? && Len(q.continuation.value.sourceInstanceId) > max)
  {
    var ts := Texts(q);
    assert ts[0] == q.componentKey && ts[1] == q.componentInstanceId && ts[2] == q.code && ts[3] == q.domain;
    assert ts[4] == q.pluginFamily && ts[5] == q.failureClass && ts[6] == q.ownership.configurationId;
    assert ts[7] == q.ownership.responsibility && ts[8] == q.ownership.pluginInstanceId;
    assert ts[9] == q.ownership.subscriberInstanceId;
  }

  /** The checks that `queryJSON` makes before it encodes the query. */
  method MeasureTexts(q: Query<GoString>, max: nat) returns (long: bool)
    ensures long <==> TooLong(q, max)
  {
    var texts := Texts(q);
    TextsAreMeasured(q, max);
    for i := 0 to |texts|
      invariant forall j :: 0 <= j < i ==> !Long(texts[j], max)
    {
      if texts[i].Some? && Len(texts[i].value) > max {
        assert Long(Texts(q)[i], max);
        return true;
      }
    }
    return q.continuation.Some? && Len(q.continuation.value.sourceInstanceId) > max;
  }

  /**
   `queryJSON`. The native reader answers exactly a query that fits, asked of an open reader, and its
   answer is returned. The early checks change nothing that the caller can see, except on a nil reader
   with an overlong string, which answers `invalid_query` where `read` answers `closed`.
   */
  method QueryJson(reader: Reader, q: Query<GoString>, max: nat, native: Text -> Result<Text, string>)
    returns (r: Result<Text, Error>)
    ensures reader.OpenReader? && Bytes(Marshal(q)) <= max ==>
              match native(Marshal(q))
              case Ok(page) => r == Ok(page)
              case Err(reason) => r == Err(Native(reason))
    ensures reader.OpenReader? && Bytes(Marshal(q)) > max ==> r == Err(InvalidQuery)
    ensures reader.ClosedReader? ==> r == Err(if Bytes(Marshal(q)) > max then InvalidQuery else ReaderClosed)
    ensures reader.NilReader? ==> r == Err(if TooLong(q, max) then InvalidQuery else ReaderClosed)
    ensures r == Read(reader, Marshal(q), max, native) <==> !(reader.NilReader? && TooLong(q, max))
  {
    var long := MeasureTexts(q, max);
    if long {
      LongTextLongQuery(q, max);
      return Err(InvalidQuery);
    }
    var payload := Marshal(q);
    return Read(reader, payload, max, native);
  }
}
