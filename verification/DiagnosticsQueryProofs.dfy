/** The walk decides exactly the specification, within fixed bounds of work and output. */
module DiagnosticsQueryProofs {
  import opened Prelude
  import opened Decimal
  import opened JsonText
  import opened DiagnosticsQuery

  // ----- What the walk charges ----------------------------------------------------------

  ghost function Charge(t: Tree): nat {
    if t.Leaf? then ScalarCharge(t.scalar) else ChargeIn(t.fields)
  }

  ghost function ChargeIn(fs: Fields): nat {
    if fs.NoFields? then 0 else Bytes(fs.name) + Charge(fs.tree) + ChargeIn(fs.rest)
  }

  // ----- Unfolding is deterministic -----------------------------------------------------

  lemma {:induction false} OneTree(heap: Heap, v: Value, a: Tree, b: Tree)
    requires Denotes(heap, v, a) && Denotes(heap, v, b)
    ensures a == b
    decreases a, 0
  {
    if a.Node? { OneForest(heap, FieldsOf(heap, v.ref), a.fields, b.fields); }
  }

  lemma {:induction false} OneForest(heap: Heap, fields: seq<Field>, a: Fields, b: Fields)
    requires DenotesFields(heap, fields, a) && DenotesFields(heap, fields, b)
    ensures a == b
    decreases a, |fields|
  {
    if fields != [] {
      if fields[0].own {
        OneTree(heap, fields[0].value, a.tree, b.tree);
        OneForest(heap, fields[1..], a.rest, b.rest);
      } else {
        OneForest(heap, fields[1..], a, b);
      }
    }
  }

  // ----- The walk finds every tree that fits --------------------------------------------

  ghost function Join(out: Members, ms: Members): Members {
    if out.NoMembers? then ms else Member(out.name, out.value, Join(out.rest, ms))
  }

  lemma {:induction false} JoinSnoc(out: Members, name: Text, value: Json, ms: Members)
    ensures Join(Snoc(out, name, value), ms) == Join(out, Member(name, value, ms))
    ensures forall n :: HasName(Snoc(out, name, value), n) <==> HasName(out, n) || n == name
  {
    if out.Member? { JoinSnoc(out.rest, name, value, ms); }
  }

  lemma {:induction false} JoinNothing(out: Members)
    ensures Join(out, NoMembers) == out
  {
    if out.Member? { JoinNothing(out.rest); }
  }

  lemma {:induction false} WalkComplete(c: Contract, heap: Heap, v: Value, key: Text, depth: nat,
                                        size: nat, nodes: nat, t: Tree)
    requires Denotes(heap, v, t) && RulesOk(c, t, key, depth)
    requires nodes + Nodes(t) <= MAX_QUERY_NODES && size + Charge(t) <= c.maxBytes
    ensures Walk(c, heap, v, key, depth, size, nodes)
         == Walked(Some(Rename(t)), size + Charge(t), nodes + Nodes(t))
    decreases t, 0
  {
    if t.Node? {
      WalkFieldsComplete(c, heap, FieldsOf(heap, v.ref), depth, 0, NoMembers, size, nodes + 1, t.fields);
    }
  }

  /** None of the fields has a wire name that is taken. */
  ghost predicate NamesFree(out: Members, fs: Fields) {
    forall n :: n in WireNames(fs) ==> !HasName(out, n)
  }

  /** The fields unfold to `fs`, which obeys the rules and fits into what is left of the budgets. */
  ghost predicate Fits(c: Contract, heap: Heap, fields: seq<Field>, depth: nat, count: nat, out: Members,
                       size: nat, nodes: nat, fs: Fields)
  {
    && DenotesFields(heap, fields, fs) && FieldsOk(c, fs, depth) && NoClash(fs) && NamesFree(out, fs)
    && count + Count(fs) <= MAX_QUERY_OBJECT_FIELDS
    && nodes + NodesIn(fs) <= MAX_QUERY_NODES && size + ChargeIn(fs) <= c.maxBytes
  }

  lemma FirstFits(c: Contract, heap: Heap, fields: seq<Field>, depth: nat, count: nat, out: Members,
                  size: nat, nodes: nat, fs: Fields)
    requires Fits(c, heap, fields, depth, count, out, size, nodes, fs) && fields != [] && fields[0].own
    ensures fs.Entry? && fs.name == fields[0].name && Denotes(heap, fields[0].value, fs.tree)
    ensures RulesOk(c, fs.tree, Wire(fs.name), depth + 1)
    ensures nodes + Nodes(fs.tree) <= MAX_QUERY_NODES && size + Bytes(fs.name) + Charge(fs.tree) <= c.maxBytes
    ensures count < MAX_QUERY_OBJECT_FIELDS && Bytes(fs.name) <= MAX_QUERY_FIELD_NAME_BYTES
    ensures !HasName(out, Wire(fs.name))
  {
  }

  lemma RestFits(c: Contract, heap: Heap, fields: seq<Field>, depth: nat, count: nat, out: Members,
                 size: nat, nodes: nat, fs: Fields)
    requires Fits(c, heap, fields, depth, count, out, size, nodes, fs) && fields != [] && fields[0].own
    ensures Fits(c, heap, fields[1..], depth, count + 1, Snoc(out, Wire(fs.name), Rename(fs.tree)),
                 size + Bytes(fs.name) + Charge(fs.tree), nodes + Nodes(fs.tree), fs.rest)
  {
    JoinSnoc(out, Wire(fs.name), Rename(fs.tree), NoMembers);
  }

  /** The walk takes one own field and goes on with the others. */
  lemma OwnField(c: Contract, heap: Heap, fields: seq<Field>, depth: nat, count: nat, out: Members,
                 size: nat, nodes: nat, j: Json, charge: nat, more: nat)
    requires depth <= MAX_QUERY_DEPTH && fields != [] && fields[0].own && count < MAX_QUERY_OBJECT_FIELDS
    requires Bytes(fields[0].name) <= MAX_QUERY_FIELD_NAME_BYTES && size + Bytes(fields[0].name) <= c.maxBytes
    requires !HasName(out, Wire(fields[0].name))
    requires Walk(c, heap, fields[0].value, Wire(fields[0].name), depth + 1, size + Bytes(fields[0].name), nodes)
             == Walked(Some(j), size + Bytes(fields[0].name) + charge, nodes + more)
    ensures WalkFields(c, heap, fields, depth, count, out, size, nodes)
         == WalkFields(c, heap, fields[1..], depth, count + 1, Snoc(out, Wire(fields[0].name), j),
                       size + Bytes(fields[0].name) + charge, nodes + more)
  {
  }

  lemma OtherField(c: Contract, heap: Heap, fields: seq<Field>, depth: nat, count: nat, out: Members, size: nat,
                   nodes: nat)
    requires depth <= MAX_QUERY_DEPTH && fields != [] && !fields[0].own
    ensures WalkFields(c, heap, fields, depth, count, out, size, nodes)
         == WalkFields(c, heap, fields[1..], depth, count, out, size, nodes)
  {
  }

  /** What the walk returns for fields that unfold to `fs`. */
  ghost function Expected(out: Members, size: nat, nodes: nat, fs: Fields): Walked<Members> {
    Walked(Some(Join(out, RenameFields(fs))), size + ChargeIn(fs), nodes + NodesIn(fs))
  }

  lemma ExpectedRest(out: Members, size: nat, nodes: nat, fs: Fields)
    requires fs.Entry?
    ensures Expected(Snoc(out, Wire(fs.name), Rename(fs.tree)), size + Bytes(fs.name) + Charge(fs.tree),
                     nodes + Nodes(fs.tree), fs.rest)
         == Expected(out, size, nodes, fs)
  {
    JoinSnoc(out, Wire(fs.name), Rename(fs.tree), RenameFields(fs.rest));
  }

  lemma {:induction false} WalkFieldsComplete(c: Contract, heap: Heap, fields: seq<Field>, depth: nat, count: nat,
                                              out: Members, size: nat, nodes: nat, fs: Fields)
    requires depth <= MAX_QUERY_DEPTH && Fits(c, heap, fields, depth, count, out, size, nodes, fs)
    ensures WalkFields(c, heap, fields, depth, count, out, size, nodes) == Expected(out, size, nodes, fs)
    decreases fs, |fields|
  {
    if fields == [] {
      JoinNothing(out);
    } else if !fields[0].own {
      WalkFieldsComplete(c, heap, fields[1..], depth, count, out, size, nodes, fs);
      OtherField(c, heap, fields, depth, count, out, size, nodes);
    } else {
      OwnFieldComplete(c, heap, fields, depth, count, out, size, nodes, fs);
    }
  }

  lemma {:induction false} OwnFieldComplete(c: Contract, heap: Heap, fields: seq<Field>, depth: nat, count: nat,
                                            out: Members, size: nat, nodes: nat, fs: Fields)
    requires depth <= MAX_QUERY_DEPTH && Fits(c, heap, fields, depth, count, out, size, nodes, fs)
    requires fields != [] && fields[0].own
    ensures WalkFields(c, heap, fields, depth, count, out, size, nodes) == Expected(out, size, nodes, fs)
    decreases fs, |fields|, 0
  {
    FirstFits(c, heap, fields, depth, count, out, size, nodes, fs);
    RestFits(c, heap, fields, depth, count, out, size, nodes, fs);
    var wire, size' := Wire(fs.name), size + Bytes(fs.name);
    WalkComplete(c, heap, fields[0].value, wire, depth + 1, size', nodes, fs.tree);
    OwnField(c, heap, fields, depth, count, out, size, nodes, Rename(fs.tree), Charge(fs.tree), Nodes(fs.tree));
    WalkFieldsComplete(c, heap, fields[1..], depth, count + 1, Snoc(out, wire, Rename(fs.tree)),
                       size' + Charge(fs.tree), nodes + Nodes(fs.tree), fs.rest);
    ExpectedRest(out, size, nodes, fs);
  }

  // ----- The walk finds nothing else ----------------------------------------------------

  /** A result of the walk comes from a tree that the value unfolds to. */
  lemma {:induction false} WalkSound(c: Contract, heap: Heap, v: Value, key: Text, depth: nat, size: nat, nodes: nat)
    returns (t: Tree)
    requires depth <= MAX_QUERY_DEPTH + 1 && Walk(c, heap, v, key, depth, size, nodes).result.Some?
    requires size <= c.maxBytes
    ensures Denotes(heap, v, t) && RulesOk(c, t, key, depth)
    ensures nodes + Nodes(t) <= MAX_QUERY_NODES && size + Charge(t) <= c.maxBytes
    decreases MAX_QUERY_DEPTH + 1 - depth, 1, 0
  {
    if v.Object? {
      var fs := WalkFieldsSound(c, heap, FieldsOf(heap, v.ref), depth, 0, NoMembers, size, nodes + 1);
      t := Node(fs);
    } else {
      t := Leaf(v);
    }
  }

  lemma {:induction false} WalkFieldsSound(c: Contract, heap: Heap, fields: seq<Field>, depth: nat, count: nat,
                                           out: Members, size: nat, nodes: nat)
    returns (fs: Fields)
    requires depth <= MAX_QUERY_DEPTH && count <= MAX_QUERY_OBJECT_FIELDS
    requires nodes <= MAX_QUERY_NODES && size <= c.maxBytes
    requires WalkFields(c, heap, fields, depth, count, out, size, nodes).result.Some?
    ensures DenotesFields(heap, fields, fs) && FieldsOk(c, fs, depth) && NoClash(fs)
    ensures count + Count(fs) <= MAX_QUERY_OBJECT_FIELDS
    ensures forall n :: n in WireNames(fs) ==> !HasName(out, n)
    ensures nodes + NodesIn(fs) <= MAX_QUERY_NODES && size + ChargeIn(fs) <= c.maxBytes
    decreases MAX_QUERY_DEPTH + 1 - depth, 0, |fields|
  {
    if fields == [] {
      fs := NoFields;
    } else if !fields[0].own {
      fs := WalkFieldsSound(c, heap, fields[1..], depth, count, out, size, nodes);
    } else {
      var name, wire := fields[0].name, Wire(fields[0].name);
      var size' := size + Bytes(name);
      var t := WalkSound(c, heap, fields[0].value, wire, depth + 1, size', nodes);
      WalkComplete(c, heap, fields[0].value, wire, depth + 1, size', nodes, t);
      var out' := Snoc(out, wire, Rename(t));
      var rest := WalkFieldsSound(c, heap, fields[1..], depth, count + 1, out', size' + Charge(t), nodes + Nodes(t));
      JoinSnoc(out, wire, Rename(t), NoMembers);
      fs := Entry(name, t, rest);
      assert HasName(out', wire);
    }
  }

  // ----- The encoding is at least as long as what was charged ----------------------------

  lemma {:induction false} EscapeBytes(t: Text)
    ensures Bytes(t) <= Bytes(Escape(t)) <= 6 * Bytes(t)
  {
    if t != [] {
      EscapeBytes(t[1..]);
      BytesOfConcat(EscapeOne(t[0]), Escape(t[1..]));
      EscapeOneBytes(t[0]);
    }
  }

  lemma EscapeOneBytes(c: CodePoint)
    ensures Width(c) <= Bytes(EscapeOne(c)) <= 6 * Width(c)
  {
    if ShortEscape(c) != 0 || c < 32 || Surrogate(c) {
      Word(EscapeOne(c));
    }
  }

  lemma {:induction false} WireBytes(name: Text)
    ensures Bytes(name) <= Bytes(Wire(name)) && Bytes(Escape(Wire(name))) <= 6 * Bytes(name)
  {
    if name != [] {
      var head := if IsUpper(name[0]) then [95, name[0] + 32] else [name[0]];
      WireBytes(name[1..]);
      BytesOfConcat(head, Wire(name[1..]));
      EscapeJoin(head, Wire(name[1..]));
      BytesOfConcat(Escape(head), Escape(Wire(name[1..])));
      if IsUpper(name[0]) {
        assert head[1..] == [name[0] + 32];
        assert Escape(head) == [95] + ([name[0] + 32] + []);
        assert Escape(head) == head;
      } else {
        EscapeOneBytes(name[0]);
        assert Escape(head) == EscapeOne(name[0]) + [];
        assert Escape(head) == EscapeOne(name[0]);
      }
    }
  }

  lemma {:induction false} EscapeJoin(a: Text, b: Text)
    ensures Escape(a + b) == Escape(a) + Escape(b)
  {
    if a == [] {
      assert a + b == b && [] + Escape(b) == Escape(b);
    } else {
      assert (a + b)[1..] == a[1..] + b;
      EscapeJoin(a[1..], b);
      Assoc(EscapeOne(a[0]), Escape(a[1..]), Escape(b));
    }
  }

  lemma QuotedBytes(t: Text)
    ensures Bytes(Quoted(t)) == Bytes(Escape(t)) + 2
  {
    BytesOfConcat([34], Escape(t));
    BytesOfConcat([34] + Escape(t), [34]);
  }

  lemma ObjectBytes(ms: Members)
    ensures Bytes(Encode(JObject(ms))) == Bytes(EncodeMembers(ms)) + 2
  {
    BytesOfConcat([123], EncodeMembers(ms));
    BytesOfConcat([123] + EncodeMembers(ms), [125]);
  }

  lemma MemberBytes(ms: Members)
    requires ms.Member?
    ensures var comma := if ms.rest.NoMembers? then 0 else 1;
            Bytes(EncodeMembers(ms))
            == Bytes(Escape(ms.name)) + 3 + Bytes(Encode(ms.value)) + comma + Bytes(EncodeMembers(ms.rest))
  {
    var q, v := Quoted(ms.name), Encode(ms.value);
    var tail := if ms.rest.NoMembers? then [] else [44] + EncodeMembers(ms.rest);
    QuotedBytes(ms.name);
    BytesOfConcat(q, [58]);
    BytesOfConcat(q + [58], v);
    BytesOfConcat(q + [58] + v, tail);
    BytesOfConcat([44], EncodeMembers(ms.rest));
  }

  /** A query that exceeds the running size would also exceed the limit once encoded. */
  lemma {:induction false} EncodingCoversCharge(t: Tree)
    ensures Charge(t) <= Bytes(Encode(Rename(t)))
    decreases t, 0
  {
    if t.Node? {
      ObjectBytes(RenameFields(t.fields));
      MembersCoverCharge(t.fields);
    } else if t.scalar.Str? {
      QuotedBytes(t.scalar.text);
      EscapeBytes(t.scalar.text);
    }
  }

  lemma {:induction false} MembersCoverCharge(fs: Fields)
    ensures ChargeIn(fs) <= Bytes(EncodeMembers(RenameFields(fs)))
    decreases fs, 0
  {
    if fs.Entry? {
      MemberBytes(RenameFields(fs));
      WireBytes(fs.name);
      EscapeBytes(Wire(fs.name));
      EncodingCoversCharge(fs.tree);
      MembersCoverCharge(fs.rest);
    }
  }

  // ----- The budgets bound the encoding -------------------------------------------------

  lemma BigBytes(n: nat)
    requires n <= MAX_U64
    ensures Bytes(Encode(JString(Print(n)))) <= 22
  {
    PowersOfTen();
    PrintLength(n, 20);
    PrintIsCanonical(n);
    EscapeDigits(Print(n));
    QuotedBytes(Print(n));
  }

  lemma IntBytes(n: int)
    requires SafeInteger(n)
    ensures Bytes(Encode(JInt(n))) <= 22
  {
    PowersOfTen();
    PrintLength(if n < 0 then -n else n, 16);
    if n < 0 { BytesOfConcat([45], Print(-n)); }
  }

  lemma ScalarBytes(c: Contract, v: Value, key: Text)
    requires ScalarOk(c, v, key)
    ensures Bytes(Encode(WireScalar(v))) <= 6 * ScalarCharge(v) + 22
  {
    match v
    case Str(t) => QuotedBytes(t); EscapeBytes(t);
    case BigInt(n) => BigBytes(n);
    case Number(n) => IntBytes(n.value);
    case Null => Word([110, 117, 108, 108]);
    case Bool(flag) => Word(Encode(JBool(flag)));
  }

  lemma PowersOfTen()
    ensures PowerOfTen(16) == 10000000000000000 && PowerOfTen(20) == 100000000000000000000
  {
    assert PowerOfTen(4) == 10000;
    assert PowerOfTen(8) == 10000 * PowerOfTen(4);
    assert PowerOfTen(12) == 10000 * PowerOfTen(8);
    assert PowerOfTen(16) == 10000 * PowerOfTen(12);
    assert PowerOfTen(20) == 10000 * PowerOfTen(16);
  }

  lemma {:induction false} EscapeDigits(t: Text)
    requires AllDigits(t)
    ensures Escape(t) == t
  {
    if t != [] {
      EscapeDigits(t[1..]);
      assert t == [t[0]] + t[1..];
    }
  }

  lemma {:induction false} Word(t: Text)
    requires forall i :: 0 <= i < |t| ==> t[i] < 0x80
    ensures Bytes(t) == |t|
  {
    if t != [] { Word(t[1..]); }
  }

  /**
   When the walk finishes, its budgets alone bound the text: six bytes for every byte charged
   (inserted underscores and escapes included) and 26 for every value visited.
   */
  lemma {:induction false} BudgetsBoundEncoding(c: Contract, t: Tree, key: Text, depth: nat)
    requires RulesOk(c, t, key, depth)
    ensures Bytes(Encode(Rename(t))) <= 6 * Charge(t) + 26 * Nodes(t) - 4
    decreases t, 0
  {
    if t.Node? {
      ObjectBytes(RenameFields(t.fields));
      BudgetsBoundMembers(c, t.fields, depth);
    } else {
      ScalarBytes(c, t.scalar, key);
    }
  }

  lemma {:induction false} BudgetsBoundMembers(c: Contract, fs: Fields, depth: nat)
    requires FieldsOk(c, fs, depth)
    ensures Bytes(EncodeMembers(RenameFields(fs))) <= 6 * ChargeIn(fs) + 26 * NodesIn(fs)
    decreases fs, 0
  {
    if fs.Entry? {
      MemberBytes(RenameFields(fs));
      WireBytes(fs.name);
      BudgetsBoundEncoding(c, fs.tree, Wire(fs.name), depth + 1);
      BudgetsBoundMembers(c, fs.rest, depth);
    }
  }

  // ----- queryJson ----------------------------------------------------------------------

  /** The walk from empty budgets succeeds exactly for the accepted trees and those too long. */
  lemma WalkDecides(c: Contract, heap: Heap, query: Value, e: Text)
    ensures var o := Walk(c, heap, Query(query), [], 0, 0, 0);
            (o.result.Some? && e == Encode(o.result.value) && Bytes(e) <= c.maxBytes) <==> Accepts(c, heap, query, e)
  {
    var o := Walk(c, heap, Query(query), [], 0, 0, 0);
    if o.result.Some? && e == Encode(o.result.value) && Bytes(e) <= c.maxBytes {
      var t := WalkSound(c, heap, Query(query), [], 0, 0, 0);
      WalkComplete(c, heap, Query(query), [], 0, 0, 0, t);
      assert AcceptsTree(c, heap, query, t, e);
    }
    if Accepts(c, heap, query, e) {
      var t :| AcceptsTree(c, heap, query, t, e);
      EncodingCoversCharge(t);
      WalkComplete(c, heap, Query(query), [], 0, 0, 0, t);
    }
  }

  /**
   `queryJson`: the same text or refusal as unfolding the whole query, checking the rules, encoding
   it and measuring the result.
   */
  method QueryJson(c: Contract, heap: Heap, query: Value) returns (r: Option<Text>)
    ensures forall e :: r == Some(e) <==> Accepts(c, heap, query, e)
  {
    var walk := new QueryWalk(c, heap);
    var j := walk.Normalize(Query(query), [], 0);
    forall e { WalkDecides(c, heap, query, e); }
    if j.None? { return None; }
    var encoded := Encode(j.value);
    if Bytes(encoded) > c.maxBytes { return None; }
    return Some(encoded);
  }
}
