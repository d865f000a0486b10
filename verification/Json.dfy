/**
 The part of JSON.stringify that the page envelope and the closure receipt use: decimal
 numbers, booleans and strings (section 7 of RFC 8259), with sizes in UTF-8 bytes.
 */
module Json {
  import opened Sequences
  import opened Utf8

  function Digit(d: nat): char
    requires d < 16
  {
    "0123456789abcdef"[d]
  }

  function Decimal(n: nat): (s: string)
    ensures |s| >= 1
  {
    if n < 10 then [Digit(n)] else Decimal(n / 10) + [Digit(n % 10)]
  }

  function Boolean(b: bool): string {
    if b then "true" else "false"
  }

  function EscapeChar(c: char): (s: string)
    ensures |s| >= 1
  {
    if c == '\"' then "\\\""
    else if c == '\\' then "\\\\"
    else if c == '\U{08}' then "\\b"
    else if c == '\U{0C}' then "\\f"
    else if c == '\n' then "\\n"
    else if c == '\r' then "\\r"
    else if c == '\t' then "\\t"
    else if c as int < 0x20 then "\\u00" + [Digit(c as int / 16), Digit(c as int % 16)]
    else [c]
  }

  function Escape(s: string): string {
    FlatMap(EscapeChar, s)
  }

  function Quote(s: string): string {
    "\"" + Escape(s) + "\""
  }

  /** Size of a text in UTF-8. */
  function ByteLength(s: string): nat {
    if s == [] then 0 else ByteLength(s[..|s| - 1]) + |Encode(s[|s| - 1])|
  }

  lemma {:induction false} ByteLengthConcat(a: string, b: string)
    ensures ByteLength(a + b) == ByteLength(a) + ByteLength(b)
  {
    if b == [] {
      assert a + b == a;
    } else {
      assert (a + b)[..|a + b| - 1] == a + b[..|b| - 1];
      ByteLengthConcat(a, b[..|b| - 1]);
    }
  }

  lemma {:induction false} ByteLengthBounds(s: string)
    ensures |s| <= ByteLength(s) <= 4 * |s|
  {
    if s != [] {
      ByteLengthBounds(s[..|s| - 1]);
    }
  }

  lemma {:induction false} AsciiByteLength(s: string)
    requires forall i :: 0 <= i < |s| ==> s[i] as int < 0x80
    ensures ByteLength(s) == |s|
  {
    if s != [] {
      AsciiByteLength(s[..|s| - 1]);
    }
  }

  lemma DecimalBytes(n: nat)
    ensures ByteLength(Decimal(n)) == if n < 10 then 1 else ByteLength(Decimal(n / 10)) + 1
  {
    var last := [Digit(n % 10)];
    AsciiByteLength(last);
    if n >= 10 {
      ByteLengthConcat(Decimal(n / 10), last);
    }
  }

  /** A larger number never prints shorter. */
  lemma {:induction false} DecimalMonotone(a: nat, b: nat)
    requires a <= b
    ensures ByteLength(Decimal(a)) <= ByteLength(Decimal(b))
  {
    DecimalBytes(a);
    DecimalBytes(b);
    if a >= 10 {
      DecimalMonotone(a / 10, b / 10);
    }
  }

  function PowerOfTen(k: nat): nat {
    if k == 0 then 1 else 10 * PowerOfTen(k - 1)
  }

  lemma {:induction false} DecimalLength(n: nat, k: nat)
    requires k >= 1 && n < PowerOfTen(k)
    ensures |Decimal(n)| <= k
  {
    if n >= 10 {
      DecimalLength(n / 10, k - 1);
    }
  }
}
