/** What callers of `queryJson` can rely on. */
module DiagnosticsQueryTheorems {
  import opened Prelude
  import opened Decimal
  import opened JsonText
  import opened DiagnosticsQuery
  import opened DiagnosticsQueryProofs

  /** A query has at most one encoding. */
  lemma OneEncoding(c: Contract, heap: Heap, query: Value, e: Text, e': Text)
    requires Accepts(c, heap, query, e) && Accepts(c, heap, query, e')
    ensures e == e'
  {
    var t :| AcceptsTree(c, heap, query, t, e);
    var t' :| AcceptsTree(c, heap, query, t', e');
    OneTree(heap, Query(query), t, t');
  }

  // ----- Work ---------------------------------------------------------------------------

  /** Whatever the heap looks like, `normalize` is entered at most once more than the cap. */
  lemma {:induction false} WalkWork(c: Contract, heap: Heap, v: Value, key: Text, depth: nat, size: nat, nodes: nat)
    requires depth <= MAX_QUERY_DEPTH + 1 && nodes <= MAX_QUERY_NODES
    ensures var o := Walk(c, heap, v, key, depth, size, nodes);
            nodes < o.nodes <= MAX_QUERY_NODES + 1 && (o.result.Some? ==> o.nodes <= MAX_QUERY_NODES)
    decreases MAX_QUERY_DEPTH + 1 - depth, 1, 0
  {
    if v.Object? && nodes + 1 <= MAX_QUERY_NODES && depth <= MAX_QUERY_DEPTH {
      WalkFieldsWork(c, heap, FieldsOf(heap, v.ref), depth, 0, NoMembers, size, nodes + 1);
    }
  }

  lemma {:induction false} WalkFieldsWork(c: Contract, heap: Heap, fields: seq<Field>, depth: nat, count: nat,
                                          out: Members, size: nat, nodes: nat)
    requires depth <= MAX_QUERY_DEPTH && nodes <= MAX_QUERY_NODES
    ensures var o := WalkFields(c, heap, fields, depth, count, out, size, nodes);
            nodes <= o.nodes <= MAX_QUERY_NODES + 1 && (o.result.Some? ==> o.nodes <= MAX_QUERY_NODES)
    decreases MAX_QUERY_DEPTH + 1 - depth, 0, |fields|
  {
    if fields != [] {
      var name, wire := fields[0].name, Wire(fields[0].name);
      var o := Walk(c, heap, fields[0].value, wire, depth + 1, size + Bytes(name), nodes);
      WalkWork(c, heap, fields[0].value, wire, depth + 1, size + Bytes(name), nodes);
      if !fields[0].own {
        WalkFieldsWork(c, heap, fields[1..], depth, count, out, size, nodes);
      } else if o.result.Some? {
        WalkFieldsWork(c, heap, fields[1..], depth, count + 1, Snoc(out, wire, o.result.value), o.size, o.nodes);
      }
    }
  }

  /** The budgets of a finished walk bound the text it is about to produce. */
  lemma FinishedWalkIsShort(c: Contract, heap: Heap, query: Value)
    requires Walk(c, heap, Query(query), [], 0, 0, 0).result.Some?
    ensures var o := Walk(c, heap, Query(query), [], 0, 0, 0);
            && Bytes(Encode(o.result.value)) <= 6 * o.size + 26 * o.nodes
            && o.size <= c.maxBytes && o.nodes <= MAX_QUERY_NODES
  {
    var t := WalkSound(c, heap, Query(query), [], 0, 0, 0);
    WalkComplete(c, heap, Query(query), [], 0, 0, 0, t);
    BudgetsBoundEncoding(c, t, [], 0);
  }

  // ----- Cycles -------------------------------------------------------------------------

  /** `w` is reached from `v` through `n` own fields. */
  ghost predicate Reaches(heap: Heap, v: Value, w: Value, n: nat)
    decreases n
  {
    if n == 0 then v == w
    else v.Object? && exists i :: Through(heap, v, i) && Reaches(heap, FieldsOf(heap, v.ref)[i].value, w, n - 1)
  }

  ghost predicate Through(heap: Heap, v: Value, i: int) {
    v.Object? && 0 <= i < |FieldsOf(heap, v.ref)| && FieldsOf(heap, v.ref)[i].own
  }

  ghost function Height(t: Tree): nat {
    if t.Leaf? then 0 else 1 + HeightIn(t.fields)
  }

  ghost function HeightIn(fs: Fields): nat {
    if fs.NoFields? then 0 else if Height(fs.tree) > HeightIn(fs.rest) then Height(fs.tree) else HeightIn(fs.rest)
  }

  lemma {:induction false} ChildTree(heap: Heap, fields: seq<Field>, fs: Fields, i: nat) returns (t: Tree)
    requires DenotesFields(heap, fields, fs) && i < |fields| && fields[i].own
    ensures Denotes(heap, fields[i].value, t) && Height(t) <= HeightIn(fs)
    decreases |fields|
  {
    if i == 0 {
      t := fs.tree;
    } else {
      assert fields[1..][i - 1] == fields[i];
      t := ChildTree(heap, fields[1..], if fields[0].own then fs.rest else fs, i - 1);
    }
  }

  lemma {:induction false} ReachedTree(heap: Heap, v: Value, w: Value, n: nat, t: Tree) returns (t': Tree)
    requires Denotes(heap, v, t) && Reaches(heap, v, w, n)
    ensures Denotes(heap, w, t') && Height(t') + n <= Height(t)
    decreases n
  {
    if n == 0 {
      t' := t;
    } else {
      var i :| Through(heap, v, i) && Reaches(heap, FieldsOf(heap, v.ref)[i].value, w, n - 1);
      var child := ChildTree(heap, FieldsOf(heap, v.ref), t.fields, i);
      t' := ReachedTree(heap, FieldsOf(heap, v.ref)[i].value, w, n - 1, child);
    }
  }

  /** Some object of the query can be reached from itself. */
  ghost predicate Cyclic(heap: Heap, query: Value) {
    exists w, k, n :: n > 0 && Reaches(heap, query, w, k) && Reaches(heap, w, w, n)
  }

  /** Every cyclic query is refused. */
  lemma CyclicIsRefused(c: Contract, heap: Heap, query: Value, e: Text)
    requires Cyclic(heap, Query(query))
    ensures !Accepts(c, heap, query, e)
  {
    if Accepts(c, heap, query, e) {
      var t :| AcceptsTree(c, heap, query, t, e);
      var w, k, n :| n > 0 && Reaches(heap, Query(query), w, k) && Reaches(heap, w, w, n);
      var inner := ReachedTree(heap, Query(query), w, k, t);
      var again := ReachedTree(heap, w, w, n, inner);
      OneTree(heap, w, inner, again);
    }
  }

  // ----- Wire names ---------------------------------------------------------------------

  predicate Capital(c: CodePoint) {
    'A' as int <= c <= 'Z' as int
  }

  function Capitals(name: Text): nat {
    if name == [] then 0 else (if Capital(name[0]) then 1 else 0) + Capitals(name[1..])
  }

  /** A capital is written as an underscore and the small letter, any other character as itself. */
  predicate Writes(name: Text, wire: Text, i: nat)
    requires i < |name|
  {
    var at := i + Capitals(name[..i]);
    if Capital(name[i])
    then at + 1 < |wire| && wire[at] == '_' as int && wire[at + 1] == 'a' as int + (name[i] - 'A' as int)
    else at < |wire| && wire[at] == name[i]
  }

  /** `wire` is `name` in snake case. */
  predicate Snake(name: Text, wire: Text) {
    |wire| == |name| + Capitals(name) && forall i :: 0 <= i < |name| ==> Writes(name, wire, i)
  }

  lemma CapitalsOfPrefix(name: Text, i: nat)
    requires 0 < i <= |name|
    ensures Capitals(name[..i]) == (if Capital(name[0]) then 1 else 0) + Capitals(name[1..][..i - 1])
  {
    assert name[..i][0] == name[0] && name[..i][1..] == name[1..][..i - 1];
  }

  /** What the first character of a name becomes, and whether the rest is right. */
  lemma SnakeStep(name: Text, wire: Text)
    requires name != []
    ensures var k := if Capital(name[0]) then 2 else 1;
            Snake(name, wire) <==> |wire| >= k && Writes(name, wire, 0) && Snake(name[1..], wire[k..])
  {
    var k := if Capital(name[0]) then 2 else 1;
    assert Capitals(name[..0]) == 0 by { assert name[..0] == []; }
    if |wire| >= k {
      forall i | 0 < i < |name| ensures Writes(name, wire, i) <==> Writes(name[1..], wire[k..], i - 1) {
        CapitalsOfPrefix(name, i);
      }
      if Snake(name, wire) {
        forall i | 0 <= i < |name| - 1 ensures Writes(name[1..], wire[k..], i) {
          assert Writes(name, wire, i + 1);
        }
      }
    }
  }

  /** The wire name of a field is its name in snake case. */
  lemma {:induction false} WireIsSnake(name: Text, wire: Text)
    ensures Snake(name, wire) <==> wire == Wire(name)
    decreases |name|
  {
    if name != [] {
      var k := if Capital(name[0]) then 2 else 1;
      SnakeStep(name, wire);
      assert name[..0] == [];
      if |wire| >= k {
        WireIsSnake(name[1..], wire[k..]);
        assert wire == wire[..k] + wire[k..];
        assert Wire(name)[k..] == Wire(name[1..]) && |Wire(name)| >= k;
        if Writes(name, wire, 0) { assert wire[..k] == Wire(name)[..k]; }
      }
    }
  }

  // ----- Normalization preserves meaning ------------------------------------------------

  function Child(fs: Fields, i: nat): Option<Tree> {
    if fs.NoFields? then None else if i == 0 then Some(fs.tree) else Child(fs.rest, i - 1)
  }

  function Name(fs: Fields, i: nat): Option<Text> {
    if fs.NoFields? then None else if i == 0 then Some(fs.name) else Name(fs.rest, i - 1)
  }

  function MemberValue(ms: Members, i: nat): Option<Json> {
    if ms.NoMembers? then None else if i == 0 then Some(ms.value) else MemberValue(ms.rest, i - 1)
  }

  function MemberName(ms: Members, i: nat): Option<Text> {
    if ms.NoMembers? then None else if i == 0 then Some(ms.name) else MemberName(ms.rest, i - 1)
  }

  /** What the query holds at a path of field positions. */
  function At(t: Tree, path: seq<nat>): Option<Tree>
    decreases |path|
  {
    if path == [] then Some(t)
    else if t.Leaf? || Child(t.fields, path[0]).None? then None
    else At(Child(t.fields, path[0]).value, path[1..])
  }

  function AtJson(j: Json, path: seq<nat>): Option<Json>
    decreases |path|
  {
    if path == [] then Some(j)
    else if !j.JObject? || MemberValue(j.members, path[0]).None? then None
    else AtJson(MemberValue(j.members, path[0]).value, path[1..])
  }

  /** A scalar on the wire stands for the same value; only a u64 becomes its decimal numeral. */
  ghost predicate SameScalar(v: Value, j: Json) {
    match v
    case Null => j == JNull
    case Bool(b) => j == JBool(b)
    case Number(n) => n.Some? && j == JInt(n.value)
    case Str(t) => j == JString(t)
    case BigInt(n) => j.JString? && Canonical(j.text) && ValueOf(j.text) == n && 0 <= n <= MAX_U64
    case _ => false
  }

  /** Same fields at the same positions, renamed, and no two names alike. */
  ghost predicate SameFields(fs: Fields, ms: Members) {
    && (forall i: nat :: MemberName(ms, i).Some? <==> Name(fs, i).Some?)
    && (forall i: nat :: Name(fs, i).Some? ==> Snake(Name(fs, i).value, MemberName(ms, i).value))
    && (forall i: nat, k: nat :: i < k && MemberName(ms, k).Some? ==> MemberName(ms, i) != MemberName(ms, k))
  }

  lemma {:induction false} RenamedAt(fs: Fields, i: nat)
    ensures MemberName(RenameFields(fs), i) == if Name(fs, i).Some? then Some(Wire(Name(fs, i).value)) else None
    ensures MemberValue(RenameFields(fs), i) == if Child(fs, i).Some? then Some(Rename(Child(fs, i).value)) else None
    ensures Name(fs, i).Some? ==> Wire(Name(fs, i).value) in WireNames(fs)
  {
    if fs.Entry? && i > 0 { RenamedAt(fs.rest, i - 1); }
  }

  lemma {:induction false} RenamedApart(fs: Fields, i: nat, k: nat)
    requires NoClash(fs) && i < k && MemberName(RenameFields(fs), k).Some?
    ensures MemberName(RenameFields(fs), i) != MemberName(RenameFields(fs), k)
  {
    RenamedAt(fs.rest, k - 1);
    if i > 0 { RenamedApart(fs.rest, i - 1, k - 1); }
  }

  lemma {:induction false} ChildRules(c: Contract, fs: Fields, depth: nat, i: nat)
    requires FieldsOk(c, fs, depth) && Child(fs, i).Some?
    ensures Name(fs, i).Some? && RulesOk(c, Child(fs, i).value, Wire(Name(fs, i).value), depth + 1)
  {
    if i > 0 { ChildRules(c, fs.rest, depth, i - 1); }
  }

  /** At every path the wire value has a node exactly where the query has one, with the same meaning. */
  lemma {:induction false} MeaningKept(c: Contract, t: Tree, key: Text, depth: nat, path: seq<nat>)
    requires RulesOk(c, t, key, depth)
    ensures At(t, path).Some? <==> AtJson(Rename(t), path).Some?
    ensures At(t, path).Some? ==>
              var x, j := At(t, path).value, AtJson(Rename(t), path).value;
              if x.Leaf? then SameScalar(x.scalar, j) else j.JObject? && SameFields(x.fields, j.members)
    decreases |path|
  {
    if path == [] {
      if t.Node? {
        forall i: nat
          ensures MemberName(RenameFields(t.fields), i).Some? <==> Name(t.fields, i).Some?
          ensures Name(t.fields, i).Some? ==>
                    Snake(Name(t.fields, i).value, MemberName(RenameFields(t.fields), i).value)
        {
          RenamedAt(t.fields, i);
          if Name(t.fields, i).Some? { WireIsSnake(Name(t.fields, i).value, Wire(Name(t.fields, i).value)); }
        }
        forall i: nat, k: nat | i < k && MemberName(RenameFields(t.fields), k).Some?
          ensures MemberName(RenameFields(t.fields), i) != MemberName(RenameFields(t.fields), k)
        {
          RenamedApart(t.fields, i, k);
        }
      } else if t.scalar.BigInt? {
        PrintIsCanonical(t.scalar.big);
      }
    } else if t.Node? {
      RenamedAt(t.fields, path[0]);
      if Child(t.fields, path[0]).Some? {
        ChildRules(c, t.fields, depth, path[0]);
        MeaningKept(c, Child(t.fields, path[0]).value, Wire(Name(t.fields, path[0]).value), depth + 1, path[1..]);
      }
    }
  }

  /** Both have a node at the path, of the same meaning, or neither has. */
  ghost predicate SameAt(t: Tree, j: Json, path: seq<nat>) {
    && (At(t, path).Some? <==> AtJson(j, path).Some?)
    && (At(t, path).Some? ==>
          var x, y := At(t, path).value, AtJson(j, path).value;
          if x.Leaf? then SameScalar(x.scalar, y) else y.JObject? && SameFields(x.fields, y.members))
  }

  /**
   The accepted text, read as JSON, is the query: it has the same nodes at the same paths, every field
   under its name in snake case and every scalar with its value.
   */
  lemma AcceptedMeansQuery(c: Contract, heap: Heap, query: Value, e: Text) returns (t: Tree, j: Json)
    requires Accepts(c, heap, query, e)
    ensures Denotes(heap, Query(query), t) && Read(e) == Some((j, [])) && forall path :: SameAt(t, j, path)
  {
    t :| AcceptsTree(c, heap, query, t, e);
    j := Rename(t);
    ReadUndoesEncode(j);
    forall path ensures SameAt(t, j, path) {
      MeaningKept(c, t, [], 0, path);
    }
  }

  /** Without an argument the query is the empty object. */
  lemma DefaultQuery(c: Contract, heap: Heap, e: Text)
    ensures Accepts(c, heap, Undefined, e) <==> e == Lit("{}") && c.maxBytes >= 2
  {
    var empty := Node(NoFields);
    assert Encode(Rename(empty)) == [123, 125] == Lit("{}");
    assert [123, 125][1..] == [125] && Bytes([125]) == 1 && Bytes([123, 125]) == 2;
    if Accepts(c, heap, Undefined, e) {
      var t :| AcceptsTree(c, heap, Undefined, t, e);
      OneTree(heap, EMPTY_OBJECT, t, empty);
    }
    if e == Lit("{}") && c.maxBytes >= 2 {
      assert RulesOk(c, empty, [], 0) && Nodes(empty) == 1;
      assert Denotes(heap, Query(Undefined), empty);
      assert Bytes(e) == 2;
      assert AcceptsTree(c, heap, Undefined, empty, e);
    }
  }

  // ----- Normalizing the output again ---------------------------------------------------

  /** The query that a decoded JSON value is. */
  function AsTree(j: Json): Tree {
    match j
    case JNull => Leaf(Null)
    case JBool(b) => Leaf(Bool(b))
    case JInt(n) => Leaf(Number(Some(n)))
    case JString(t) => Leaf(Str(t))
    case JObject(ms) => Node(AsFields(ms))
  }

  function AsFields(ms: Members): Fields {
    if ms.NoMembers? then NoFields else Entry(ms.name, AsTree(ms.value), AsFields(ms.rest))
  }

  ghost predicate NamesFit(j: Json) {
    j.JObject? ==> MemberNamesFit(j.members)
  }

  ghost predicate MemberNamesFit(ms: Members) {
    ms.Member? ==> Bytes(ms.name) <= MAX_QUERY_FIELD_NAME_BYTES && NamesFit(ms.value) && MemberNamesFit(ms.rest)
  }

  lemma {:induction false} WireIsStable(name: Text)
    ensures Wire(Wire(name)) == Wire(name)
  {
    if name != [] {
      WireIsStable(name[1..]);
      var w := Wire(name);
      if IsUpper(name[0]) {
        assert w[1..] == [name[0] + 32] + Wire(name[1..]);
        assert w[1..][1..] == Wire(name[1..]);
      } else {
        assert w[1..] == Wire(name[1..]);
      }
    }
  }

  /** A renamed tree obeys the rules again exactly if its names still fit, and renames to itself. */
  lemma {:induction false} RenamedRules(c: Contract, t: Tree, key: Text, depth: nat)
    requires RulesOk(c, t, key, depth)
    ensures RulesOk(c, AsTree(Rename(t)), key, depth) <==> NamesFit(Rename(t))
    ensures Rename(AsTree(Rename(t))) == Rename(t) && Nodes(AsTree(Rename(t))) == Nodes(t)
    decreases t, 0
  {
    if t.Node? { RenamedFieldRules(c, t.fields, depth); }
  }

  lemma {:induction false} RenamedFieldRules(c: Contract, fs: Fields, depth: nat)
    requires FieldsOk(c, fs, depth) && NoClash(fs)
    ensures var fs' := AsFields(RenameFields(fs));
            && (FieldsOk(c, fs', depth) <==> MemberNamesFit(RenameFields(fs)))
            && NoClash(fs') && WireNames(fs') == WireNames(fs) && Count(fs') == Count(fs)
            && RenameFields(fs') == RenameFields(fs) && NodesIn(fs') == NodesIn(fs)
    decreases fs, 0
  {
    if fs.Entry? {
      WireIsStable(fs.name);
      RenamedRules(c, fs.tree, Wire(fs.name), depth + 1);
      RenamedFieldRules(c, fs.rest, depth);
    }
  }

  /**
   Sending the decoded output of an accepted query through `queryJson` again gives the same text
   when every wire name is within the field-name cap, and a refusal otherwise.
   */
  lemma NormalizeAgain(c: Contract, heap: Heap, query: Value, e: Text, j: Json, heap': Heap, query': Value, e': Text)
    requires Accepts(c, heap, query, e) && Encode(j) == e && Denotes(heap', query', AsTree(j))
    ensures Accepts(c, heap', query', e') <==> NamesFit(j) && e' == e
  {
    var t :| AcceptsTree(c, heap, query, t, e);
    EncodeInjective(j, Rename(t));
    RenamedRules(c, t, [], 0);
    if NamesFit(j) && e' == e {
      assert AcceptsTree(c, heap', query', AsTree(j), e);
    }
    if Accepts(c, heap', query', e') {
      var t' :| AcceptsTree(c, heap', query', t', e');
      OneTree(heap', query', t', AsTree(j));
    }
  }
}
