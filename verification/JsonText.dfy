/** JSON values as `JSON.stringify` sees them after normalization, and the text it writes. */
module JsonText {
  import opened Prelude
  import opened Decimal

  datatype Json =
    | JNull
    | JBool(flag: bool)
    | JInt(number: int)
    | JString(text: Text)
    | JObject(members: Members)

  /** The members of an object in insertion order. */
  datatype Members = NoMembers | Member(name: Text, value: Json, rest: Members)

  // ----- Writing ------------------------------------------------------------------------

  function Hex4(c: int): Text
    requires 0 <= c < 0x10000
  {
    [HexDigit(c / 16 / 16 / 16), HexDigit(c / 16 / 16 % 16), HexDigit(c / 16 % 16), HexDigit(c % 16)]
  }

  predicate Surrogate(c: CodePoint) {
    0xD800 <= c < 0xE000
  }

  /** The letter of the two-character escape of `c`, if it has one. */
  function ShortEscape(c: CodePoint): int {
    match c
    case 8 => 98
    case 9 => 116
    case 10 => 110
    case 12 => 102
    case 13 => 114
    case 34 => 34
    case 92 => 92
    case _ => 0
  }

  function EscapeOne(c: CodePoint): Text {
    if ShortEscape(c) != 0 then [92, ShortEscape(c)]
    else if c < 32 || Surrogate(c) then [92, 117] + Hex4(c)
    else [c]
  }

  function Escape(t: Text): Text {
    if t == [] then [] else EscapeOne(t[0]) + Escape(t[1..])
  }

  function Quoted(t: Text): Text {
    [34] + Escape(t) + [34]
  }

  function PrintInt(n: int): Text {
    if n < 0 then [45] + Print(-n) else Print(n)
  }

  function Encode(j: Json): Text {
    match j
    case JNull => [110, 117, 108, 108]
    case JBool(flag) => if flag then [116, 114, 117, 101] else [102, 97, 108, 115, 101]
    case JInt(n) => PrintInt(n)
    case JString(t) => Quoted(t)
    case JObject(ms) => [123] + EncodeMembers(ms) + [125]
  }

  function EncodeMembers(ms: Members): Text {
    match ms
    case NoMembers => []
    case Member(name, value, rest) =>
      Quoted(name) + [58] + Encode(value) + (if rest.NoMembers? then [] else [44] + EncodeMembers(rest))
  }

  predicate LowerHex(c: CodePoint) {
    '0' as int <= c <= '9' as int || 'a' as int <= c <= 'f' as int
  }

  /**
   What is escaped (QuoteJSONString in ECMA-262): control characters, quotes, backslashes and lone
   surrogates, seven of them by a letter, the others by four lower-case hexadecimal digits.
   */
  lemma EscapesExactly(c: CodePoint)
    ensures EscapeOne(c) == [c] <==> !(c < 0x20 || c == 0x22 || c == 0x5C || 0xD800 <= c <= 0xDFFF)
    ensures |EscapeOne(c)| == 2 <==> c in {0x08, 0x09, 0x0A, 0x0C, 0x0D, 0x22, 0x5C}
    ensures |EscapeOne(c)| in {1, 2, 6} && (|EscapeOne(c)| == 1 ==> EscapeOne(c) == [c])
    ensures |EscapeOne(c)| == 6 ==> forall i :: 2 <= i < 6 ==> LowerHex(EscapeOne(c)[i])
  {
  }

  // ----- Reading (RFC 8259, without white space and fractions) --------------------------

  function HexValue(c: CodePoint): (r: Option<int>)
    ensures r.Some? ==> 0 <= r.value < 16
  {
    if '0' as int <= c <= '9' as int then Some(c - '0' as int)
    else if 'a' as int <= c <= 'f' as int then Some(c - 'a' as int + 10)
    else if 'A' as int <= c <= 'F' as int then Some(c - 'A' as int + 10)
    else None
  }

  /** The character of a two-character escape. */
  function Unescaped(letter: CodePoint): Option<CodePoint> {
    if letter == '\"' as int then Some(0x22)
    else if letter == '\\' as int then Some(0x5C)
    else if letter == '/' as int then Some(0x2F)
    else if letter == 'b' as int then Some(0x08)
    else if letter == 'f' as int then Some(0x0C)
    else if letter == 'n' as int then Some(0x0A)
    else if letter == 'r' as int then Some(0x0D)
    else if letter == 't' as int then Some(0x09)
    else None
  }

  /** Four hexadecimal digits. */
  function ReadHex(t: Text): (r: Option<CodePoint>)
    ensures r.Some? ==> |t| >= 4
  {
    if |t| < 4 then None
    else
      var a, b, c, d := HexValue(t[0]), HexValue(t[1]), HexValue(t[2]), HexValue(t[3]);
      if a.None? || b.None? || c.None? || d.None? then None
      else Some(4096 * a.value + 256 * b.value + 16 * c.value + d.value)
  }

  /** One character of a string, and what follows it. */
  function ReadCharacter(t: Text): (r: Option<(CodePoint, Text)>)
    ensures r.Some? ==> |r.value.1| < |t|
  {
    if t == [] || t[0] < 0x20 || t[0] == '\"' as int then None
    else if t[0] != '\\' as int then Some((t[0], t[1..]))
    else if |t| == 1 then None
    else if t[1] == 'u' as int then
      var h := ReadHex(t[2..]);
      if h.None? then None else Some((h.value, t[6..]))
    else
      var c := Unescaped(t[1]);
      if c.None? then None else Some((c.value, t[2..]))
  }

  /** The rest of a string after its opening quote, and what follows the closing quote. */
  function ReadRest(t: Text): (r: Option<(Text, Text)>)
    ensures r.Some? ==> |r.value.1| < |t|
    decreases |t|
  {
    if t != [] && t[0] == '\"' as int then Some(([], t[1..]))
    else
      var c := ReadCharacter(t);
      if c.None? then None
      else
        var r := ReadRest(c.value.1);
        if r.None? then None else Some(([c.value.0] + r.value.0, r.value.1))
  }

  function ReadString(t: Text): (r: Option<(Text, Text)>)
    ensures r.Some? ==> |r.value.1| < |t|
  {
    if t != [] && t[0] == '\"' as int then ReadRest(t[1..]) else None
  }

  /** How many digits a text begins with. */
  function Digits(t: Text): (n: nat)
    ensures n <= |t| && AllDigits(t[..n])
  {
    if t == [] || !IsDigit(t[0]) then 0
    else
      var n := 1 + Digits(t[1..]);
      assert t[..n] == [t[0]] + t[1..][..n - 1];
      n
  }

  function ReadNatural(t: Text): (r: Option<(int, Text)>)
    ensures r.Some? ==> |r.value.1| < |t|
  {
    var n := Digits(t);
    if Canonical(t[..n]) then Some((ValueOf(t[..n]), t[n..])) else None
  }

  function ReadInt(t: Text): (r: Option<(int, Text)>)
    ensures r.Some? ==> |r.value.1| < |t|
  {
    if t != [] && t[0] == '-' as int then
      var r := ReadNatural(t[1..]);
      if r.None? then None else Some((-r.value.0, r.value.1))
    else ReadNatural(t)
  }

  function ReadWord(t: Text, word: string, j: Json): Option<(Json, Text)> {
    if Lit(word) <= t then Some((j, t[|word|..])) else None
  }

  /** One value, and what follows it. */
  function Read(t: Text): (r: Option<(Json, Text)>)
    ensures r.Some? ==> |r.value.1| < |t|
    decreases |t|, 1
  {
    if t == [] then None
    else if t[0] == 'n' as int then ReadWord(t, "null", JNull)
    else if t[0] == 't' as int then ReadWord(t, "true", JBool(true))
    else if t[0] == 'f' as int then ReadWord(t, "false", JBool(false))
    else if t[0] == '\"' as int then
      var r := ReadString(t);
      if r.None? then None else Some((JString(r.value.0), r.value.1))
    else if t[0] == '{' as int then ReadObject(t[1..])
    else
      var r := ReadInt(t);
      if r.None? then None else Some((JInt(r.value.0), r.value.1))
  }

  /** The rest of an object after its opening brace. */
  function ReadObject(t: Text): (r: Option<(Json, Text)>)
    ensures r.Some? ==> |r.value.1| < |t|
    decreases |t|, 1
  {
    if t != [] && t[0] == '}' as int then Some((JObject(NoMembers), t[1..]))
    else
      var r := ReadMembers(t);
      if r.None? then None else Some((JObject(r.value.0), r.value.1))
  }

  /** At least one member, up to the closing brace. */
  function ReadMembers(t: Text): (r: Option<(Members, Text)>)
    ensures r.Some? ==> |r.value.1| < |t|
    decreases |t|, 0
  {
    var name := ReadString(t);
    if name.None? || name.value.1 == [] || name.value.1[0] != ':' as int then None
    else
      var value := Read(name.value.1[1..]);
      if value.None? || value.value.1 == [] then None
      else
        var next := value.value.1;
        if next[0] == '}' as int then Some((Member(name.value.0, value.value.0, NoMembers), next[1..]))
        else if next[0] != ',' as int then None
        else
          var rest := ReadMembers(next[1..]);
          if rest.None? then None else Some((Member(name.value.0, value.value.0, rest.value.0), rest.value.1))
  }

  // ----- Reading undoes writing ---------------------------------------------------------

  lemma Assoc(p: Text, q: Text, x: Text)
    ensures p + q + x == p + (q + x)
  {
  }

  lemma HexDigitReads(d: int)
    requires 0 <= d < 16
    ensures HexValue(HexDigit(d)) == Some(d)
  {
  }

  lemma HexReads(c: int, x: Text)
    requires 0 <= c < 0x10000
    ensures ReadHex(Hex4(c) + x) == Some(c)
  {
    var t := Hex4(c) + x;
    assert t[0] == Hex4(c)[0] && t[1] == Hex4(c)[1] && t[2] == Hex4(c)[2] && t[3] == Hex4(c)[3];
    HexDigitReads(c / 16 / 16 / 16);
    HexDigitReads(c / 16 / 16 % 16);
    HexDigitReads(c / 16 % 16);
    HexDigitReads(c % 16);
  }

  lemma CharacterReads(c: CodePoint, x: Text)
    ensures ReadCharacter(EscapeOne(c) + x) == Some((c, x))
    ensures (EscapeOne(c) + x)[0] != '\"' as int
  {
    var t := EscapeOne(c) + x;
    if ShortEscape(c) != 0 {
      assert t[0] == 92 && t[1] == ShortEscape(c) && t[2..] == x;
    } else if c < 32 || Surrogate(c) {
      HexReads(c, x);
      assert t[0] == 92 && t[1] == 117 && t[2..] == Hex4(c) + x && t[6..] == x;
    } else {
      assert t[0] == c && t[1..] == x;
    }
  }

  /** An escaped string with its closing quote and what follows. */
  function Closed(t: Text, after: Text): Text {
    Escape(t) + ([34] + after)
  }

  lemma ClosedStep(t: Text, after: Text)
    ensures Closed(t, after) == if t == [] then [34] + after else EscapeOne(t[0]) + Closed(t[1..], after)
  {
    if t == [] {
      assert [] + ([34] + after) == [34] + after;
    } else {
      assert EscapeOne(t[0]) + Escape(t[1..]) + ([34] + after) == EscapeOne(t[0]) + Closed(t[1..], after);
    }
  }

  lemma {:induction false} RestReads(t: Text, x: Text)
    ensures ReadRest(Closed(t, x)) == Some((t, x))
    decreases |t|
  {
    ClosedStep(t, x);
    if t == [] {
      assert ([34] + x)[1..] == x;
    } else {
      CharacterReads(t[0], Closed(t[1..], x));
      RestReads(t[1..], x);
      assert [t[0]] + t[1..] == t;
    }
  }

  lemma StringReads(t: Text, x: Text)
    ensures ReadString(Quoted(t) + x) == Some((t, x))
  {
    assert Quoted(t) + x == [34] + Closed(t, x);
    assert ([34] + Closed(t, x))[1..] == Closed(t, x);
    RestReads(t, x);
  }

  /** What can follow a JSON value inside a larger text. */
  predicate Delimited(t: Text) {
    t == [] || !IsDigit(t[0])
  }

  lemma {:induction false} DigitsStop(d: Text, x: Text)
    requires AllDigits(d) && Delimited(x)
    ensures Digits(d + x) == |d|
  {
    if d == [] {
      assert d + x == x;
    } else {
      assert (d + x)[1..] == d[1..] + x;
      DigitsStop(d[1..], x);
    }
  }

  lemma NaturalReads(n: nat, x: Text)
    requires Delimited(x)
    ensures ReadNatural(Print(n) + x) == Some((n, x))
  {
    var d := Print(n);
    PrintIsCanonical(n);
    DigitsStop(d, x);
    assert (d + x)[..|d|] == d && (d + x)[|d|..] == x;
  }

  lemma NegativeReads(n: int, x: Text)
    requires Delimited(x) && n < 0
    ensures ReadInt([45] + Print(-n) + x) == Some((n, x))
  {
    var t := Print(-n) + x;
    Assoc([45], Print(-n), x);
    assert ([45] + t)[0] == 45 && ([45] + t)[1..] == t;
    NaturalReads(-n, x);
  }

  lemma PositiveReads(n: nat, x: Text)
    requires Delimited(x)
    ensures ReadInt(Print(n) + x) == Some((n, x))
  {
    PrintIsCanonical(n);
    assert (Print(n) + x)[0] == Print(n)[0];
    NaturalReads(n, x);
  }

  lemma IntReads(n: int, x: Text)
    requires Delimited(x)
    ensures ReadInt(PrintInt(n) + x) == Some((n, x))
  {
    if n < 0 { NegativeReads(n, x); } else { PositiveReads(n, x); }
  }

  /** An integer begins with a minus sign or a digit, so with no other kind of value. */
  lemma IntHead(n: int, x: Text)
    ensures (PrintInt(n) + x) != [] && ((PrintInt(n) + x)[0] == 45 || IsDigit((PrintInt(n) + x)[0]))
  {
    PrintIsCanonical(if n < 0 then -n else n);
  }

  lemma NumberReads(n: int, x: Text)
    requires Delimited(x)
    ensures Read(PrintInt(n) + x) == Some((JInt(n), x))
  {
    IntHead(n, x);
    IntReads(n, x);
  }

  lemma WordReads(word: string, j: Json, x: Text)
    ensures ReadWord(Lit(word) + x, word, j) == Some((j, x))
  {
    assert (Lit(word) + x)[|word|..] == x;
  }

  lemma WordsRead(x: Text)
    ensures Read(Encode(JNull) + x) == Some((JNull, x))
    ensures Read(Encode(JBool(true)) + x) == Some((JBool(true), x))
    ensures Read(Encode(JBool(false)) + x) == Some((JBool(false), x))
  {
    assert Encode(JNull) == Lit("null") && Encode(JBool(true)) == Lit("true") && Encode(JBool(false)) == Lit("false");
    WordReads("null", JNull, x);
    WordReads("true", JBool(true), x);
    WordReads("false", JBool(false), x);
  }

  /** Members with the closing brace and what follows. */
  function Inner(ms: Members, after: Text): Text {
    EncodeMembers(ms) + ([125] + after)
  }

  /** What follows a member value. */
  function Next(ms: Members, after: Text): Text {
    if ms.NoMembers? then [125] + after else [44] + Inner(ms, after)
  }

  lemma ObjectStep(ms: Members, after: Text)
    ensures Encode(JObject(ms)) + after == [123] + Inner(ms, after)
  {
  }

  lemma Flatten(p: Text, q: Text, r: Text, t: Text, end: Text)
    ensures (p + q + r + t) + end == p + (q + (r + (t + end)))
  {
  }

  lemma InnerStep(ms: Members, after: Text)
    requires ms.Member?
    ensures Inner(ms, after) == Quoted(ms.name) + ([58] + (Encode(ms.value) + Next(ms.rest, after)))
  {
    var name, value := Quoted(ms.name), Encode(ms.value);
    var tail := if ms.rest.NoMembers? then [] else [44] + EncodeMembers(ms.rest);
    var end := [125] + after;
    assert tail + end == Next(ms.rest, after) by {
      if ms.rest.Member? { Assoc([44], EncodeMembers(ms.rest), end); }
    }
    Flatten(name, [58], value, tail, end);
  }

  lemma {:induction false} EncodeReads(j: Json, x: Text)
    requires Delimited(x)
    ensures Read(Encode(j) + x) == Some((j, x))
    decreases j, 1
  {
    match j {
      case JNull => WordsRead(x);
      case JBool(_) => WordsRead(x);
      case JInt(n) => NumberReads(n, x);
      case JString(t) => TextReads(t, x);
      case JObject(ms) =>
        ObjectStep(ms, x);
        BraceReads(Inner(ms, x));
        ObjectReads(ms, x);
    }
  }

  lemma TextReads(t: Text, x: Text)
    ensures Read(Quoted(t) + x) == Some((JString(t), x))
  {
    StringReads(t, x);
    assert (Quoted(t) + x)[0] == 34;
  }

  lemma BraceReads(t: Text)
    ensures Read([123] + t) == ReadObject(t)
  {
    assert ([123] + t)[0] == 123 && ([123] + t)[1..] == t;
  }

  lemma {:induction false} ObjectReads(ms: Members, x: Text)
    ensures ReadObject(Inner(ms, x)) == Some((JObject(ms), x))
    decreases ms, 1
  {
    if ms.NoMembers? {
      assert Inner(ms, x) == [125] + x && ([125] + x)[1..] == x;
    } else {
      MembersRead(ms, x);
      InnerStep(ms, x);
      assert Inner(ms, x)[0] == Quoted(ms.name)[0];
    }
  }

  lemma {:induction false} MembersRead(ms: Members, x: Text)
    requires ms.Member?
    ensures ReadMembers(Inner(ms, x)) == Some((ms, x))
    decreases ms, 0
  {
    InnerStep(ms, x);
    var next := Next(ms.rest, x);
    var value := Encode(ms.value) + next;
    StringReads(ms.name, [58] + value);
    assert ([58] + value)[1..] == value;
    EncodeReads(ms.value, next);
    if ms.rest.NoMembers? {
      assert next[1..] == x;
    } else {
      assert next[1..] == Inner(ms.rest, x);
      MembersRead(ms.rest, x);
    }
  }

  /** Reading the text of a value gives the value back. */
  lemma ReadUndoesEncode(j: Json)
    ensures Read(Encode(j)) == Some((j, []))
  {
    assert Encode(j) + [] == Encode(j);
    EncodeReads(j, []);
  }

  /** Different values are never written as the same text. */
  lemma EncodeInjective(a: Json, b: Json)
    requires Encode(a) == Encode(b)
    ensures a == b
  {
    ReadUndoesEncode(a);
    ReadUndoesEncode(b);
  }
}
