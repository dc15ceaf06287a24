/** Entries of a scope-stack snapshot on the wire (`go/nemo_relay/nemo_relay.go`). */
module ScopeStackEntry {
  import opened Prelude

  const DASH: Byte := 45

  const UNKNOWN := 10

  /** The canonical names of the scope types, at the index of the type. */
  const NAMES: seq<string> := ["agent", "function", "tool", "llm", "retriever", "embedder", "reranker",
                               "guardrail", "evaluator", "custom", "unknown"]

  datatype Encoded = Encoded(scopeId: seq<Byte>, scopeType: string)

  datatype Data = Data(scopeId: seq<Byte>, scopeType: int)

  predicate IsHex(b: Byte) {
    48 <= b <= 57 || 65 <= b <= 70 || 97 <= b <= 102
  }

  /** `strings.ReplaceAll(identifier, "-", "")` */
  function WithoutDashes(id: seq<Byte>): seq<Byte> {
    if id == [] then [] else (if id[0] == DASH then [] else [id[0]]) + WithoutDashes(id[1..])
  }

  function LowerByte(b: Byte): Byte {
    if 65 <= b <= 90 then b + 32 else b
  }

  function ToLower(id: seq<Byte>): seq<Byte> {
    seq(|id|, i requires 0 <= i < |id| => LowerByte(id[i]))
  }

  predicate AllHex(s: seq<Byte>) {
    forall i :: 0 <= i < |s| ==> IsHex(s[i])
  }

  predicate DashAt(i: int) {
    i == 8 || i == 13 || i == 18 || i == 23
  }

  /** The textual form of section 4 of RFC 9562: 8-4-4-4-12 hexadecimal digits of either case. */
  predicate CanonicalUuid(id: seq<Byte>) {
    |id| == 36 && forall i :: 0 <= i < 36 ==>
      if i == 8 || i == 13 || i == 18 || i == 23 then id[i] == 45
      else 48 <= id[i] <= 57 || 65 <= id[i] <= 70 || 97 <= id[i] <= 102
  }

  /** The two are equal but for the letters `A` to `Z` of the first, which are `a` to `z` in the second. */
  ghost predicate LowerCased(id: seq<Byte>, lower: seq<Byte>) {
    && |lower| == |id|
    && forall i :: 0 <= i < |id| ==> lower[i] == if 65 <= id[i] <= 90 then id[i] + 32 else id[i]
  }

  /** The checks that the decoder makes, one after the other. */
  predicate PassesChecks(id: seq<Byte>) {
    && |id| == 36 && id[8] == DASH && id[13] == DASH && id[18] == DASH && id[23] == DASH
    && |WithoutDashes(id)| == 32 && AllHex(WithoutDashes(id))
  }

  // ----- The checks accept exactly the canonical form -----------------------------------

  ghost function Dashes(id: seq<Byte>): nat {
    if id == [] then 0 else (if id[0] == DASH then 1 else 0) + Dashes(id[1..])
  }

  lemma {:induction false} DashesSplit(a: seq<Byte>, b: seq<Byte>)
    ensures Dashes(a + b) == Dashes(a) + Dashes(b)
  {
    if a == [] {
      assert a + b == b;
    } else {
      assert (a + b)[1..] == a[1..] + b;
      DashesSplit(a[1..], b);
    }
  }

  lemma DashesAround(id: seq<Byte>, k: nat)
    requires k < |id| && id[k] == DASH
    ensures Dashes(id) == Dashes(id[..k]) + 1 + Dashes(id[k + 1..])
  {
    assert id == id[..k] + id[k..] && id[k..][1..] == id[k + 1..];
    DashesSplit(id[..k], id[k..]);
  }

  lemma AllHexCons(b: Byte, rest: seq<Byte>)
    ensures AllHex([b] + rest) <==> IsHex(b) && AllHex(rest)
  {
    assert ([b] + rest)[0] == b && forall i :: 0 <= i < |rest| ==> ([b] + rest)[i + 1] == rest[i];
  }

  ghost predicate HexOrDash(id: seq<Byte>) {
    id == [] || ((id[0] == DASH || IsHex(id[0])) && HexOrDash(id[1..]))
  }

  lemma {:induction false} HexOrDashAt(id: seq<Byte>)
    ensures HexOrDash(id) <==> forall i :: 0 <= i < |id| ==> id[i] == DASH || IsHex(id[i])
  {
    if id != [] {
      HexOrDashAt(id[1..]);
      assert forall i :: 0 <= i < |id[1..]| ==> id[1..][i] == id[i + 1];
      assert forall i :: 0 < i < |id| ==> id[i] == id[1..][i - 1];
    }
  }

  lemma {:induction false} DashesCount(id: seq<Byte>)
    ensures |WithoutDashes(id)| + Dashes(id) == |id|
    ensures Dashes(id) == 0 <==> DASH !in id
    ensures AllHex(WithoutDashes(id)) <==> HexOrDash(id)
  {
    if id != [] {
      DashesCount(id[1..]);
      assert id == [id[0]] + id[1..];
      AllHexCons(id[0], WithoutDashes(id[1..]));
      assert [] + WithoutDashes(id[1..]) == WithoutDashes(id[1..]);
    }
  }

  lemma DashesOfGroups(id: seq<Byte>)
    requires |id| == 36 && id[8] == DASH && id[13] == DASH && id[18] == DASH && id[23] == DASH
    ensures Dashes(id) == 4 + Dashes(id[..8]) + Dashes(id[9..13]) + Dashes(id[14..18]) + Dashes(id[19..23])
                            + Dashes(id[24..])
  {
    var b, c, d, e := id[9..], id[14..], id[19..], id[24..];
    assert b[..4] == id[9..13] && b[5..] == c && c[..4] == id[14..18] && c[5..] == d && d[..4] == id[19..23] &&
           d[5..] == e;
    DashesAround(id, 8);
    DashesAround(b, 4);
    DashesAround(c, 4);
    DashesAround(d, 4);
  }

  /** The groups between the dashes hold no further dash exactly if 32 bytes are left without them. */
  lemma FiveGroups(id: seq<Byte>)
    requires |id| == 36 && id[8] == DASH && id[13] == DASH && id[18] == DASH && id[23] == DASH
    ensures |WithoutDashes(id)| == 32 <==>
              DASH !in id[..8] && DASH !in id[9..13] && DASH !in id[14..18] && DASH !in id[19..23] && DASH !in id[24..]
  {
    DashesOfGroups(id);
    DashesCount(id);
    DashesCount(id[..8]);
    DashesCount(id[9..13]);
    DashesCount(id[14..18]);
    DashesCount(id[19..23]);
    DashesCount(id[24..]);
  }

  /** The length, dash and dash-removal checks together accept exactly the canonical form. */
  lemma ChecksAreExact(id: seq<Byte>)
    ensures PassesChecks(id) <==> CanonicalUuid(id)
  {
    DashesCount(id);
    HexOrDashAt(id);
    if |id| == 36 && id[8] == DASH && id[13] == DASH && id[18] == DASH && id[23] == DASH {
      FiveGroups(id);
      if PassesChecks(id) {
        forall i | 0 <= i < 36 && !DashAt(i) ensures id[i] != DASH {
          if i < 8 { assert id[..8][i] == id[i]; }
          else if i < 13 { assert id[9..13][i - 9] == id[i]; }
          else if i < 18 { assert id[14..18][i - 14] == id[i]; }
          else if i < 23 { assert id[19..23][i - 19] == id[i]; }
          else { assert id[24..][i - 24] == id[i]; }
        }
      }
    }
  }

  // ----- Encoding and decoding ----------------------------------------------------------

  /** `MarshalJSON` */
  function Marshal(entry: Data): Encoded {
    Encoded(entry.scopeId,
            if 0 <= entry.scopeType < |NAMES| then NAMES[entry.scopeType] else "unknown")
  }

  /** The type that a name stands for; names of future types are unknown. */
  ghost predicate Names(name: string, category: int) {
    0 <= category <= UNKNOWN && (NAMES[category] == name || (category == UNKNOWN && name !in NAMES))
  }

  lemma NamesDistinct(i: int, k: int)
    requires 0 <= i < k < |NAMES|
    ensures NAMES[i] != NAMES[k]
  {
    assert |NAMES[0]| == 5 && |NAMES[1]| == 8 && |NAMES[2]| == 4 && |NAMES[3]| == 3 && |NAMES[4]| == 9
        && |NAMES[5]| == 8 && |NAMES[6]| == 8 && |NAMES[7]| == 9 && |NAMES[8]| == 9 && |NAMES[9]| == 6
        && |NAMES[10]| == 7;
    assert NAMES[1][0] == 'f' && NAMES[5][0] == 'e' && NAMES[6][0] == 'r';
    assert NAMES[4][0] == 'r' && NAMES[7][0] == 'g' && NAMES[8][0] == 'e';
  }

  lemma OneName(name: string, i: int, k: int)
    requires Names(name, i) && Names(name, k)
    ensures i == k
  {
    if i < k { NamesDistinct(i, k); }
    if k < i { NamesDistinct(k, i); }
  }

  class Entry {
    var scopeId: seq<Byte>
    var scopeType: int

    /**
     Accepts exactly the canonical UUIDs; stores the lower-case identifier and the type of the
     name, and leaves the receiver alone otherwise. `payload` is None for a document that does not
     decode into the wire structure.
     */
    method UnmarshalJSON(payload: Option<Encoded>) returns (ok: bool)
      modifies this
      ensures ok <==> payload.Some? && CanonicalUuid(payload.value.scopeId)
      ensures ok ==> LowerCased(payload.value.scopeId, scopeId) && Names(payload.value.scopeType, scopeType)
      ensures !ok ==> scopeId == old(scopeId) && scopeType == old(scopeType)
    {
      if payload.None? { return false; }
      var identifier := payload.value.scopeId;
      ChecksAreExact(identifier);
      if |identifier| != 36 || identifier[8] != DASH || identifier[13] != DASH
         || identifier[18] != DASH || identifier[23] != DASH {
        return false;
      }
      var hexadecimal := WithoutDashes(identifier);
      if |hexadecimal| != 32 { return false; }
      if !AllHex(hexadecimal) { return false; }
      var category := UNKNOWN;
      var index := 0;
      while index < |NAMES|
        invariant 0 <= index <= |NAMES|
        invariant category == UNKNOWN && payload.value.scopeType !in NAMES[..index]
      {
        if payload.value.scopeType == NAMES[index] {
          category := index;
          break;
        }
        index := index + 1;
      }
      scopeId := ToLower(identifier);
      scopeType := category;
      return true;
    }
  }

  /** What decoding yields, as a relation between the document and the stored entry. */
  ghost predicate Decodes(encoded: Encoded, entry: Data) {
    && CanonicalUuid(encoded.scopeId)
    && LowerCased(encoded.scopeId, entry.scopeId) && Names(encoded.scopeType, entry.scopeType)
  }

  /**
   Decoding an encoded entry gives the entry back exactly if its identifier is canonical and in
   lower case and its type is one of the known ones.
   */
  lemma RoundTrip(entry: Data)
    ensures Decodes(Marshal(entry), entry)
       <==> && CanonicalUuid(entry.scopeId)
            && (forall i :: 0 <= i < |entry.scopeId| ==> !(65 <= entry.scopeId[i] <= 90))
            && 0 <= entry.scopeType <= 10
  {
  }

  /** Encoding a decoded entry keeps the identifier up to case, and the name if it is a known one. */
  lemma RoundTripBack(encoded: Encoded, entry: Data)
    requires Decodes(encoded, entry)
    ensures LowerCased(encoded.scopeId, Marshal(entry).scopeId)
    ensures Marshal(entry).scopeType == if encoded.scopeType in NAMES then encoded.scopeType else "unknown"
    ensures Decodes(Marshal(entry), entry)
  {
    if encoded.scopeType in NAMES {
      var k :| 0 <= k < |NAMES| && NAMES[k] == encoded.scopeType;
      OneName(encoded.scopeType, entry.scopeType, k);
    }
  }

  /** Decoding is a function: a document stands for at most one entry. */
  lemma DecodesOnce(encoded: Encoded, a: Data, b: Data)
    requires Decodes(encoded, a) && Decodes(encoded, b)
    ensures a == b
  {
    OneName(encoded.scopeType, a.scopeType, b.scopeType);
  }
}
