/** Text as sequences of code points, its UTF-8 length, and canonical decimal numerals. */
module Decimal {

  /** A Unicode code point; a lone surrogate of a JavaScript string is a code point of its own. */
  type CodePoint = c: int | 0 <= c <= 0x10FFFF

  type Text = seq<CodePoint>

  function Lit(s: string): Text {
    seq(|s|, i requires 0 <= i < |s| => s[i] as int)
  }

  /** Bytes of one code point in UTF-8; a lone surrogate is written as U+FFFD, also three bytes. */
  function Width(c: CodePoint): nat {
    if c < 0x80 then 1 else if c < 0x800 then 2 else if c < 0x10000 then 3 else 4
  }

  /** UTF-8, section 3 of RFC 3629; a lone surrogate is replaced by U+FFFD. */
  function Utf8(c: CodePoint): seq<int> {
    if c < 0x80 then [c]
    else if c < 0x800 then [0xC0 + c / 64, 0x80 + c % 64]
    else if 0xD800 <= c < 0xE000 then [0xEF, 0xBF, 0xBD]
    else if c < 0x10000 then [0xE0 + c / 4096, 0x80 + c / 64 % 64, 0x80 + c % 64]
    else [0xF0 + c / 262144, 0x80 + c / 4096 % 64, 0x80 + c / 64 % 64, 0x80 + c % 64]
  }

  /** `Buffer.from(t)` */
  function Utf8Text(t: Text): seq<int> {
    if t == [] then [] else Utf8(t[0]) + Utf8Text(t[1..])
  }

  /** The length of a text is the number of the bytes that are sent. */
  lemma {:induction false} BytesAreSent(t: Text)
    ensures Bytes(t) == |Utf8Text(t)|
  {
    if t != [] { BytesAreSent(t[1..]); }
  }

  /** The code point that a lead byte and its continuation bytes stand for. */
  function FromUtf8(s: seq<int>): int
    requires 1 <= |s| <= 4
  {
    if |s| == 1 then s[0]
    else if |s| == 2 then (s[0] - 0xC0) * 64 + (s[1] - 0x80)
    else if |s| == 3 then (s[0] - 0xE0) * 4096 + (s[1] - 0x80) * 64 + (s[2] - 0x80)
    else (s[0] - 0xF0) * 262144 + (s[1] - 0x80) * 4096 + (s[2] - 0x80) * 64 + (s[3] - 0x80)
  }

  /** Each code point is written with as many bytes as its lead byte says, and read back from them. */
  lemma Utf8Reads(c: CodePoint)
    ensures FromUtf8(Utf8(c)) == if 0xD800 <= c < 0xE000 then 0xFFFD else c
    ensures var b := Utf8(c)[0];
            |Utf8(c)| == if 0 <= b < 0x80 then 1 else if 0xC0 <= b < 0xE0 then 2 else if 0xE0 <= b < 0xF0 then 3 else 4
    ensures forall i :: 0 < i < |Utf8(c)| ==> 0x80 <= Utf8(c)[i] < 0xC0
  {
    assert c / 4096 == c / 64 / 64 && c / 262144 == c / 64 / 64 / 64;
  }

  /** `Buffer.byteLength` */
  function Bytes(t: Text): nat {
    if t == [] then 0 else Width(t[0]) + Bytes(t[1..])
  }

  lemma {:induction false} BytesOfConcat(a: Text, b: Text)
    ensures Bytes(a + b) == Bytes(a) + Bytes(b)
  {
    if a == [] {
      assert a + b == b;
    } else {
      assert (a + b)[1..] == a[1..] + b;
      BytesOfConcat(a[1..], b);
    }
  }

  lemma {:induction false} BytesAtLeast(t: Text)
    ensures Bytes(t) >= |t|
  {
    if t != [] { BytesAtLeast(t[1..]); }
  }

  // ----- Decimal numerals ---------------------------------------------------------------

  predicate IsDigit(c: CodePoint) {
    48 <= c <= 57
  }

  /** The decimal numeral of a natural number, without leading zeroes. */
  function Print(n: nat): Text {
    if n < 10 then [48 + n] else Print(n / 10) + [48 + n % 10]
  }

  predicate AllDigits(t: Text) {
    forall i :: 0 <= i < |t| ==> IsDigit(t[i])
  }

  /** The number a sequence of digits stands for. */
  function ValueOf(t: Text): nat
    requires AllDigits(t)
  {
    if t == [] then 0 else ValueOf(t[..|t| - 1]) * 10 + (t[|t| - 1] - 48)
  }

  /** A numeral with no leading zero. */
  predicate Canonical(t: Text) {
    t != [] && AllDigits(t) && (t[0] == 48 ==> |t| == 1)
  }

  lemma {:induction false} PrintIsCanonical(n: nat)
    ensures Canonical(Print(n)) && ValueOf(Print(n)) == n
    ensures n > 0 ==> Print(n)[0] != 48
  {
    if n >= 10 {
      PrintIsCanonical(n / 10);
      assert Print(n)[..|Print(n)| - 1] == Print(n / 10);
    } else {
      assert Print(n)[..0] == [];
    }
  }

  lemma {:induction false} CanonicalIsPrinted(t: Text)
    requires Canonical(t)
    ensures Print(ValueOf(t)) == t
    ensures |t| > 1 ==> ValueOf(t) >= 10
  {
    var front := t[..|t| - 1];
    if |t| == 1 {
      assert front == [];
    } else {
      CanonicalIsPrinted(front);
      assert |front| == 1 ==> ValueOf(front[..0]) == 0;
      assert ValueOf(front) > 0;
      assert t == front + [t[|t| - 1]];
    }
  }

  /** A number of at most `k` digits. */
  function PowerOfTen(k: nat): nat {
    if k == 0 then 1 else 10 * PowerOfTen(k - 1)
  }

  lemma {:induction false} PrintLength(n: nat, k: nat)
    requires k > 0 && n < PowerOfTen(k)
    ensures |Print(n)| <= k && Bytes(Print(n)) == |Print(n)|
    decreases k
  {
    if n >= 10 {
      assert k > 1;
      PrintLength(n / 10, k - 1);
      BytesOfConcat(Print(n / 10), [48 + n % 10]);
    }
  }
}
