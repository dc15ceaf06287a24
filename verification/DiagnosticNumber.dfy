/** The lossless u64 of the portable diagnostic contract (`go/nemo_relay/diagnostics_types.go`). */
module DiagnosticNumber {
  import opened Prelude
  import opened Decimal
  import JsonText
  import DiagnosticsQuery

  /** A JSON document, as far as decoding it into a Go string can tell documents apart. */
  datatype Document = StringDocument(text: Text) | NullDocument | OtherDocument

  /** `strconv.ParseUint(text, 10, 64)`: leading zeroes are allowed, signs and overflow are not. */
  function ParseUint(text: Text): Option<nat> {
    if text == [] || !AllDigits(text) || ValueOf(text) > MAX_U64 then None else Some(ValueOf(text))
  }

  /** The string that `json.Unmarshal` stores; a JSON null leaves the empty string. */
  function StringOf(data: Document): Option<Text> {
    match data
    case StringDocument(text) => Some(text)
    case NullDocument => Some([])
    case OtherDocument => None
  }

  function MarshalJSON(n: nat): Document
    requires n <= MAX_U64
  {
    StringDocument(Print(n))
  }

  class Number {
    var value: nat

    ghost predicate Valid()
      reads this
    {
      value <= MAX_U64
    }

    constructor (n: nat)
      requires n <= MAX_U64
      ensures Valid() && value == n
    {
      value := n;
    }

    /**
     Accepts exactly the canonical numerals of 0 to 2^64 - 1, and stores the number that encodes
     back to the document; a refusal leaves the receiver alone.
     */
    method UnmarshalJSON(data: Document) returns (ok: bool)
      requires Valid()
      modifies this
      ensures Valid()
      ensures ok <==> exists n: nat :: n <= MAX_U64 && data == MarshalJSON(n)
      ensures if ok then data == MarshalJSON(value) else value == old(value)
    {
      DecodeExactly(data);
      var text := StringOf(data);
      if text.None? { return false; }
      var parsed := ParseUint(text.value);
      if parsed.None? || Print(parsed.value) != text.value { return false; }
      value := parsed.value;
      return true;
    }
  }

  /** The value that a document decodes to. */
  function Decode(data: Document): Option<nat> {
    var text := StringOf(data);
    if text.None? || ParseUint(text.value).None? || Print(ParseUint(text.value).value) != text.value then None
    else ParseUint(text.value)
  }

  /** Decoding and encoding are inverse to each other on exactly the numbers of 64 bits. */
  lemma DecodeExactly(data: Document)
    ensures forall n: nat :: Decode(data) == Some(n) <==> n <= MAX_U64 && data == MarshalJSON(n)
    ensures Decode(data).Some? <==> data.StringDocument? && Canonical(data.text) && ValueOf(data.text) <= MAX_U64
  {
    forall n: nat ensures Decode(data) == Some(n) <==> n <= MAX_U64 && data == MarshalJSON(n) {
      PrintIsCanonical(n);
    }
    if data.StringDocument? && Canonical(data.text) {
      CanonicalIsPrinted(data.text);
    }
    if Decode(data).Some? {
      PrintIsCanonical(Decode(data).value);
    }
  }

  /** A bigint that the Node binding writes into a query is read by the Go binding as that number. */
  lemma NodeWritesWhatGoReads(c: DiagnosticsQuery.Contract, n: int, key: Text)
    requires key in c.numeric
    ensures DiagnosticsQuery.ScalarOk(c, DiagnosticsQuery.BigInt(n), key) <==> 0 <= n <= MAX_U64
    ensures DiagnosticsQuery.ScalarOk(c, DiagnosticsQuery.BigInt(n), key) ==>
              var j := DiagnosticsQuery.WireScalar(DiagnosticsQuery.BigInt(n));
              j.JString? && Decode(StringDocument(j.text)) == Some(n)
  {
    if n >= 0 { PrintIsCanonical(n); }
  }
}
