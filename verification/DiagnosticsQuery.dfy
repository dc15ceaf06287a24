/**
 The bounded normalizer of diagnostics queries (`crates/node/diagnostics.js`, `queryJson`).

 A query is a JavaScript value in a heap of objects that may be shared or cyclic. The walk copies
 it into a JSON value with renamed fields while it charges names and strings against one running
 size and every visited value against one running count, and refuses as soon as a budget is gone.

 `Accepts` is what the walk has to decide, without any running budget: the query unfolds to a
 finite tree, the tree obeys the structural and scalar rules, and its encoding is short enough.
 */
module DiagnosticsQuery {
  import opened Prelude
  import opened Decimal
  import opened JsonText

  // ----- Values and limits --------------------------------------------------------------

  /** A JavaScript value; `Number(None)` is a number that is not an integer. */
  datatype Value =
    | Undefined
    | Null
    | Bool(flag: bool)
    | Number(integer: Option<int>)
    | BigInt(big: int)
    | Str(text: Text)
    | Object(ref: int)
    | Array
    | Other              // functions and symbols

  /** One step of `for (const field in value)`: inherited fields are enumerated too. */
  datatype Field = Field(name: Text, own: bool, value: Value)

  type Heap = map<nat, seq<Field>>

  /** What the native core prescribes. */
  datatype Contract = Contract(maxBytes: nat, numeric: set<Text>)

  const MAX_QUERY_NODES := 64
  const MAX_QUERY_DEPTH := 4
  const MAX_QUERY_OBJECT_FIELDS := 20
  const MAX_QUERY_FIELD_NAME_BYTES := 128
  const MAX_SAFE_INTEGER := 9007199254740991

  function FieldsOf(heap: Heap, ref: int): seq<Field> {
    if ref in heap then heap[ref] else []
  }

  /** The empty object literal, which no other value refers to. */
  const EMPTY_OBJECT := Object(-1)

  /** The default argument of `queryJson`. */
  function Query(query: Value): Value {
    if query.Undefined? then EMPTY_OBJECT else query
  }

  predicate IsUpper(c: CodePoint) {
    65 <= c <= 90
  }

  /** `field.replace(/[A-Z]/g, (letter) => '_' + letter.toLowerCase())` */
  function Wire(name: Text): Text {
    if name == [] then []
    else (if IsUpper(name[0]) then [95, name[0] + 32] else [name[0]]) + Wire(name[1..])
  }

  predicate SafeInteger(n: int) {
    -MAX_SAFE_INTEGER <= n <= MAX_SAFE_INTEGER
  }

  predicate ScalarOk(c: Contract, v: Value, key: Text) {
    match v
    case Null => true
    case Bool(_) => true
    case Str(_) => true
    case Number(n) => key !in c.numeric && n.Some? && -9007199254740991 <= n.value <= 9007199254740991
    case BigInt(n) => key in c.numeric && 0 <= n <= 18446744073709551615
    case _ => false
  }

  function WireScalar(v: Value): Json {
    match v
    case Bool(flag) => JBool(flag)
    case Str(t) => JString(t)
    case Number(n) => if n.Some? then JInt(n.value) else JNull
    case BigInt(n) => if n >= 0 then JString(Print(n)) else JNull
    case _ => JNull
  }

  function ScalarCharge(v: Value): nat {
    if v.Str? then Bytes(v.text) else 0
  }

  // ----- The specification --------------------------------------------------------------

  /** A query with all sharing unfolded. */
  datatype Tree = Leaf(scalar: Value) | Node(fields: Fields)

  datatype Fields = NoFields | Entry(name: Text, tree: Tree, rest: Fields)

  ghost predicate Denotes(heap: Heap, v: Value, t: Tree)
    decreases t, 0
  {
    match t
    case Leaf(s) => v == s && !v.Object?
    case Node(fs) => v.Object? && DenotesFields(heap, FieldsOf(heap, v.ref), fs)
  }

  ghost predicate DenotesFields(heap: Heap, fields: seq<Field>, fs: Fields)
    decreases fs, |fields|
  {
    if fields == [] then fs.NoFields?
    else if !fields[0].own then DenotesFields(heap, fields[1..], fs)
    else
      && fs.Entry? && fs.name == fields[0].name
      && Denotes(heap, fields[0].value, fs.tree)
      && DenotesFields(heap, fields[1..], fs.rest)
  }

  ghost function Count(fs: Fields): nat {
    if fs.NoFields? then 0 else 1 + Count(fs.rest)
  }

  ghost function WireNames(fs: Fields): set<Text> {
    if fs.NoFields? then {} else {Wire(fs.name)} + WireNames(fs.rest)
  }

  ghost predicate NoClash(fs: Fields) {
    fs.Entry? ==> Wire(fs.name) !in WireNames(fs.rest) && NoClash(fs.rest)
  }

  ghost predicate RulesOk(c: Contract, t: Tree, key: Text, depth: nat) {
    depth <= 4 &&
    match t
    case Leaf(v) => ScalarOk(c, v, key)
    case Node(fs) => Count(fs) <= 20 && NoClash(fs) && FieldsOk(c, fs, depth)
  }

  ghost predicate FieldsOk(c: Contract, fs: Fields, depth: nat) {
    fs.Entry? ==>
      && Bytes(fs.name) <= 128
      && RulesOk(c, fs.tree, Wire(fs.name), depth + 1)
      && FieldsOk(c, fs.rest, depth)
  }

  ghost function Nodes(t: Tree): nat {
    1 + if t.Leaf? then 0 else NodesIn(t.fields)
  }

  ghost function NodesIn(fs: Fields): nat {
    if fs.NoFields? then 0 else Nodes(fs.tree) + NodesIn(fs.rest)
  }

  function Rename(t: Tree): Json {
    match t
    case Leaf(v) => WireScalar(v)
    case Node(fs) => JObject(RenameFields(fs))
  }

  function RenameFields(fs: Fields): Members {
    match fs
    case NoFields => NoMembers
    case Entry(name, t, rest) => Member(Wire(name), Rename(t), RenameFields(rest))
  }

  /** The query unfolds to `t`, `t` obeys the rules, and its encoding `e` fits. */
  ghost predicate AcceptsTree(c: Contract, heap: Heap, query: Value, t: Tree, e: Text) {
    && Denotes(heap, Query(query), t)
    && RulesOk(c, t, [], 0) && Nodes(t) <= 64
    && e == Encode(Rename(t)) && Bytes(e) <= c.maxBytes
  }

  ghost predicate Accepts(c: Contract, heap: Heap, query: Value, e: Text) {
    exists t :: AcceptsTree(c, heap, query, t, e)
  }

  // ----- The walk as a function ---------------------------------------------------------

  /** A result, or a refusal, and the budgets used. */
  datatype Walked<T> = Walked(result: Option<T>, size: nat, nodes: nat)

  function Snoc(out: Members, name: Text, value: Json): Members {
    match out
    case NoMembers => Member(name, value, NoMembers)
    case Member(n, v, rest) => Member(n, v, Snoc(rest, name, value))
  }

  predicate HasName(out: Members, name: Text) {
    out.Member? && (out.name == name || HasName(out.rest, name))
  }

  function Walk(c: Contract, heap: Heap, v: Value, key: Text, depth: nat, size: nat, nodes: nat): Walked<Json>
    requires depth <= MAX_QUERY_DEPTH + 1
    decreases MAX_QUERY_DEPTH + 1 - depth, 1, 0
  {
    if nodes + 1 > MAX_QUERY_NODES || depth > MAX_QUERY_DEPTH then Walked(None, size, nodes + 1)
    else if v.Object? then
      var o := WalkFields(c, heap, FieldsOf(heap, v.ref), depth, 0, NoMembers, size, nodes + 1);
      Walked(if o.result.Some? then Some(JObject(o.result.value)) else None, o.size, o.nodes)
    else if v.Str? then
      Walked(if size + Bytes(v.text) > c.maxBytes then None else Some(WireScalar(v)), size + Bytes(v.text), nodes + 1)
    else Walked(if ScalarOk(c, v, key) then Some(WireScalar(v)) else None, size, nodes + 1)
  }

  function WalkFields(c: Contract, heap: Heap, fields: seq<Field>, depth: nat, count: nat, out: Members,
                      size: nat, nodes: nat): Walked<Members>
    requires depth <= MAX_QUERY_DEPTH
    decreases MAX_QUERY_DEPTH + 1 - depth, 0, |fields|
  {
    if fields == [] then Walked(Some(out), size, nodes)
    else if !fields[0].own then WalkFields(c, heap, fields[1..], depth, count, out, size, nodes)
    else
      var name := fields[0].name;
      var size' := size + Bytes(name);
      if count + 1 > MAX_QUERY_OBJECT_FIELDS || Bytes(name) > MAX_QUERY_FIELD_NAME_BYTES then Walked(None, size, nodes)
      else if size' > c.maxBytes || HasName(out, Wire(name)) then Walked(None, size', nodes)
      else
        var o := Walk(c, heap, fields[0].value, Wire(name), depth + 1, size', nodes);
        if o.result.None? then Walked(None, o.size, o.nodes)
        else WalkFields(c, heap, fields[1..], depth, count + 1, Snoc(out, Wire(name), o.result.value), o.size, o.nodes)
  }

  // ----- The walk as the source runs it -------------------------------------------------

  /** The budgets that all recursive calls of `normalize` share. */
  class QueryWalk {
    const contract: Contract
    const heap: Heap
    var size: nat
    var nodes: nat

    constructor (contract: Contract, heap: Heap)
      ensures this.contract == contract && this.heap == heap && size == 0 && nodes == 0
    {
      this.contract, this.heap, size, nodes := contract, heap, 0, 0;
    }

    /** `normalizeScalar`; a refusal leaves through an exception. */
    method NormalizeScalar(v: Value, key: Text) returns (r: Option<Json>)
      requires !v.Object?
      modifies this`size
      ensures size == old(size) + ScalarCharge(v)
      ensures r.Some? <==> ScalarOk(contract, v, key) && (v.Str? ==> size <= contract.maxBytes)
      ensures r.Some? ==> r.value == WireScalar(v)
    {
      if key in contract.numeric && v.BigInt? {
        if v.big < 0 || v.big > MAX_U64 { return None; }
        return Some(JString(Print(v.big)));
      }
      if key in contract.numeric && v.Number? { return None; }
      if v.Str? {
        size := size + Bytes(v.text);
        if size > contract.maxBytes { return None; }
      } else if !v.Null? && !v.Bool? && !(v.Number? && v.integer.Some? && SafeInteger(v.integer.value)) {
        return None;
      }
      return Some(WireScalar(v));
    }

    /** `normalize`; a refusal leaves through an exception. */
    method Normalize(v: Value, key: Text, depth: nat) returns (r: Option<Json>)
      requires depth <= MAX_QUERY_DEPTH + 1 && nodes <= MAX_QUERY_NODES
      modifies this`size, this`nodes
      ensures Walked(r, size, nodes) == Walk(contract, heap, v, key, depth, old(size), old(nodes))
      ensures old(nodes) < nodes <= MAX_QUERY_NODES + 1
      ensures r.Some? ==> nodes <= MAX_QUERY_NODES
      decreases MAX_QUERY_DEPTH + 1 - depth
    {
      nodes := nodes + 1;
      if nodes > MAX_QUERY_NODES || depth > MAX_QUERY_DEPTH { return None; }
      if v.Object? {
        var out := NoMembers;
        var fields := 0;
        var keys := FieldsOf(heap, v.ref);
        ghost var whole := WalkFields(contract, heap, keys, depth, 0, NoMembers, size, nodes);
        var i := 0;
        while i < |keys|
          invariant 0 <= i <= |keys| && old(nodes) < nodes <= MAX_QUERY_NODES
          invariant whole == WalkFields(contract, heap, keys[i..], depth, fields, out, size, nodes)
        {
          var field := keys[i];
          i := i + 1;
          assert keys[i - 1..][0] == field && keys[i - 1..][1..] == keys[i..];
          if !field.own { continue; }
          fields := fields + 1;
          if fields > MAX_QUERY_OBJECT_FIELDS || Bytes(field.name) > MAX_QUERY_FIELD_NAME_BYTES { return None; }
          size := size + Bytes(field.name);
          if size > contract.maxBytes { return None; }
          var wire := Wire(field.name);
          if HasName(out, wire) { return None; }
          var value := Normalize(field.value, wire, depth + 1);
          if value.None? { return None; }
          out := Snoc(out, wire, value.value);
        }
        return Some(JObject(out));
      }
      r := NormalizeScalar(v, key);
    }
  }
}
