/**
 The tokenizer of src/output.ts. The reference is the encoding of section 3 of RFC 3629 alone:
 a well-formed sequence is the encoding of some scalar value, and ill-formed input is replaced
 by maximal subparts (section 3.9 of the Unicode Standard, definition D93b).
 */
module Utf8 {
  import opened Wrappers

  type Byte = b: int | 0 <= b < 256

  const REPLACEMENT: char := '\U{FFFD}'

  /** The last six bits of a value, and the rest. */
  function Low(v: nat): nat { v % 0x40 }

  function High(v: nat): nat { v / 0x40 }

  /** The UTF-8 encoding of a Unicode scalar value. */
  function Encode(c: char): (bytes: seq<Byte>)
    ensures 1 <= |bytes| <= 4
  {
    var v := c as int;
    if v < 0x80 then [v]
    else if v < 0x800 then [0xC0 + High(v), 0x80 + Low(v)]
    else if v < 0x10000 then [0xE0 + High(High(v)), 0x80 + Low(High(v)), 0x80 + Low(v)]
    else [0xF0 + High(High(High(v))), 0x80 + Low(High(High(v))), 0x80 + Low(High(v)), 0x80 + Low(v)]
  }

  /** bytes could still become the encoding of a scalar value by appending at least one byte. */
  ghost predicate ProperPrefix(bytes: seq<Byte>) {
    exists c: char :: bytes < Encode(c)
  }

  /** n is the length of the maximal subpart at the front of an unconvertible s. */
  ghost predicate MaximalSubpart(s: seq<Byte>, n: nat) {
    && 1 <= n <= |s|
    && (n == 1 || ProperPrefix(s[..n]))
    && forall m :: n < m <= |s| ==> !ProperPrefix(s[..m])
  }

  datatype Token = Token(consumed: nat, scalar: char)

  /** The token at the front of a complete byte string, from the encoding alone. */
  ghost predicate IsToken(s: seq<Byte>, t: Token) {
    || (Encode(t.scalar) <= s && t.consumed == |Encode(t.scalar)|)
    || ((forall c: char :: !(Encode(c) <= s)) && MaximalSubpart(s, t.consumed) && t.scalar == REPLACEMENT)
  }

  // ---------------------------------------------------------------- the table-driven token

  /** Length announced by a lead byte; 0 for a byte that starts no encoding. */
  function Width(first: Byte): (w: nat)
    ensures w <= 4
  {
    if first <= 0x7F then 1
    else if 0xC2 <= first <= 0xDF then 2
    else if 0xE0 <= first <= 0xEF then 3
    else if 0xF0 <= first <= 0xF4 then 4
    else 0
  }

  /** byte may stand at the given offset after this lead byte. */
  predicate Follows(first: Byte, offset: nat, byte: Byte) {
    && 0x80 <= byte <= 0xBF
    && (offset == 1 ==>
          && (first == 0xE0 ==> byte >= 0xA0)
          && (first == 0xED ==> byte <= 0x9F)
          && (first == 0xF0 ==> byte >= 0x90)
          && (first == 0xF4 ==> byte <= 0x8F))
  }

  predicate ValidRun(s: seq<Byte>, n: nat) {
    1 <= n <= |s| && n <= Width(s[0]) && forall i :: 1 <= i < n ==> Follows(s[0], i, s[i])
  }

  function Join(high: nat, low: nat): nat { high * 0x40 + low }

  lemma JoinSplits(high: nat, low: nat)
    requires low < 0x40
    ensures High(Join(high, low)) == high && Low(Join(high, low)) == low
  {
  }

  lemma SplitJoins(v: nat)
    ensures Join(High(v), Low(v)) == v && Low(v) < 0x40
  {
  }

  /** The value carried by the n-th byte of a valid run. */
  function Payload(s: seq<Byte>, i: nat): nat
    requires 1 <= i < |s| && s[i] >= 0x80
  {
    s[i] as int - 0x80
  }

  /** The number spelled by a complete valid run. */
  function Value(s: seq<Byte>): (v: int)
    requires |s| > 0 && Width(s[0]) > 0 && ValidRun(s, Width(s[0]))
    ensures 0 <= v < 0xD800 || 0xE000 <= v < 0x110000
  {
    var first := s[0] as int;
    match Width(s[0])
    case 1 => first
    case 2 => Join(first - 0xC0, Payload(s, 1))
    case 3 => Join(Join(first - 0xE0, Payload(s, 1)), Payload(s, 2))
    case _ => Join(Join(Join(first - 0xF0, Payload(s, 1)), Payload(s, 2)), Payload(s, 3))
  }

  function Decode(s: seq<Byte>): char
    requires |s| > 0 && Width(s[0]) > 0 && ValidRun(s, Width(s[0]))
  {
    Value(s) as char
  }

  lemma TwoByteRun(h: nat, l: nat)
    requires 2 <= h < 0x20 && l < 0x40
    ensures var e: seq<Byte> := [0xC0 + h, 0x80 + l]; Width(e[0]) == 2 && ValidRun(e, 2) && Value(e) == Join(h, l)
  {
  }

  lemma ThreeByteRun(h: nat, m: nat, l: nat)
    requires h < 0x10 && m < 0x40 && l < 0x40 && (h == 0 ==> m >= 0x20) && (h == 0xD ==> m < 0x20)
    ensures var e: seq<Byte> := [0xE0 + h, 0x80 + m, 0x80 + l];
            Width(e[0]) == 3 && ValidRun(e, 3) && Value(e) == Join(Join(h, m), l)
  {
  }

  lemma FourByteRun(h: nat, m: nat, n: nat, l: nat)
    requires h <= 4 && m < 0x40 && n < 0x40 && l < 0x40 && (h == 0 ==> m >= 0x10) && (h == 4 ==> m < 0x10)
    ensures var e: seq<Byte> := [0xF0 + h, 0x80 + m, 0x80 + n, 0x80 + l];
            Width(e[0]) == 4 && ValidRun(e, 4) && Value(e) == Join(Join(Join(h, m), n), l)
  {
  }

  lemma EncodeIsValidRun(c: char)
    ensures var e := Encode(c); Width(e[0]) == |e| && ValidRun(e, |e|) && Decode(e) == c
  {
    var v := c as int;
    SplitJoins(v);
    SplitJoins(High(v));
    SplitJoins(High(High(v)));
    if 0x80 <= v {
      hide Width, ValidRun, Value;
      if v < 0x800 {
        TwoByteRun(High(v), Low(v));
      } else if v < 0x10000 {
        ThreeByteRun(High(High(v)), Low(High(v)), Low(v));
      } else {
        FourByteRun(High(High(High(v))), Low(High(High(v))), Low(High(v)), Low(v));
      }
    }
  }

  lemma ValidRunIsEncoding(s: seq<Byte>)
    requires |s| > 0 && Width(s[0]) > 0 && ValidRun(s, Width(s[0]))
    ensures Encode(Decode(s)) == s[..Width(s[0])]
  {
    var w := Width(s[0]);
    if w == 2 {
      JoinSplits(s[0] as int - 0xC0, Payload(s, 1));
    } else if w == 3 {
      var v := Join(s[0] as int - 0xE0, Payload(s, 1));
      JoinSplits(s[0] as int - 0xE0, Payload(s, 1));
      JoinSplits(v, Payload(s, 2));
    } else if w == 4 {
      var v := Join(s[0] as int - 0xF0, Payload(s, 1));
      JoinSplits(s[0] as int - 0xF0, Payload(s, 1));
      JoinSplits(v, Payload(s, 2));
      JoinSplits(Join(v, Payload(s, 2)), Payload(s, 3));
    }
  }

  /** The longest valid run at the front of s, at most one encoding long. */
  function RunLength(s: seq<Byte>, n: nat): (r: nat)
    requires |s| > 0 && ValidRun(s, n)
    ensures ValidRun(s, r) && n <= r
    ensures r < Width(s[0]) && r < |s| ==> !Follows(s[0], r, s[r])
    decreases |s| - n
  {
    if n < Width(s[0]) && n < |s| && Follows(s[0], n, s[n]) then RunLength(s, n + 1) else n
  }

  /** The token at the front of s; None while appended bytes could still complete one. */
  function NextToken(s: seq<Byte>, growing: bool): (t: Option<Token>)
    requires |s| > 0
    ensures t.Some? ==> 1 <= t.value.consumed <= |s|
  {
    var w := Width(s[0]);
    if w == 0 then Some(Token(1, REPLACEMENT))
    else
      var n := RunLength(s, 1);
      if n == w then Some(Token(w, Decode(s)))
      else if n == |s| && growing then None
      else Some(Token(n, REPLACEMENT))
  }

  /** A continuation byte that is valid at every offset after this lead byte. */
  function Filler(first: Byte): Byte {
    if first == 0xE0 then 0xA0 else if first == 0xF0 then 0x90 else 0x80
  }

  /** The bytes that could still become an encoding are the incomplete valid runs. */
  lemma ProperPrefixIffShortRun(s: seq<Byte>)
    requires |s| > 0
    ensures ProperPrefix(s) <==> |s| < Width(s[0]) && ValidRun(s, |s|)
  {
    if ProperPrefix(s) {
      var c: char :| s < Encode(c);
      EncodeIsValidRun(c);
    }
    if |s| < Width(s[0]) && ValidRun(s, |s|) {
      var t := s + seq(Width(s[0]) - |s|, _ => Filler(s[0]));
      forall i | 1 <= i < |t| ensures Follows(t[0], i, t[i]) {
        assert i < |s| ==> Follows(s[0], i, s[i]);
      }
      ValidRunIsEncoding(t);
      assert s < Encode(Decode(t));
    }
  }

  lemma EncodingAtFront(s: seq<Byte>, c: char)
    requires |s| > 0
    ensures Encode(c) <= s <==>
              Width(s[0]) > 0 && ValidRun(s, Width(s[0])) && Decode(s) == c
  {
    EncodeIsValidRun(c);
    if Encode(c) <= s {
      forall i | 1 <= i < |Encode(c)| ensures Follows(s[0], i, s[i]) {
        assert s[i] == Encode(c)[i];
      }
    }
    if Width(s[0]) > 0 && ValidRun(s, Width(s[0])) {
      ValidRunIsEncoding(s);
    }
  }

  /**
   The hand-written tokenizer meets the standard: it withholds a token exactly when more bytes
   could still complete the encoding the input ends in, and otherwise returns the scalar encoded
   at the front or one replacement for the maximal subpart there.
   */
  lemma TokenMeetsStandard(s: seq<Byte>, growing: bool)
    requires |s| > 0
    ensures NextToken(s, growing).None? <==> growing && ProperPrefix(s)
    ensures NextToken(s, growing).Some? ==> IsToken(s, NextToken(s, growing).value)
  {
    ProperPrefixIffShortRun(s);
    forall c: char ensures Encode(c) <= s <==>
              Width(s[0]) > 0 && ValidRun(s, Width(s[0])) && Decode(s) == c
    {
      EncodingAtFront(s, c);
    }
    if NextToken(s, growing).Some? && !(Width(s[0]) > 0 && ValidRun(s, Width(s[0]))) {
      var n := NextToken(s, growing).value.consumed;
      forall m | 1 <= m <= |s|
        ensures ProperPrefix(s[..m]) <==> m < Width(s[0]) && ValidRun(s, m)
      {
        ProperPrefixIffShortRun(s[..m]);
        assert s[..m][0] == s[0];
        assert ValidRun(s[..m], m) == ValidRun(s, m) by {
          assert forall i :: 1 <= i < m ==> s[..m][i] == s[i];
        }
      }
      assert MaximalSubpart(s, n);
    }
  }

  /** The standard leaves no choice: a byte string has one token at its front. */
  lemma TokenIsUnique(s: seq<Byte>, t: Token, u: Token)
    requires |s| > 0 && IsToken(s, t) && IsToken(s, u)
    ensures t == u
  {
    EncodingAtFront(s, t.scalar);
    EncodingAtFront(s, u.scalar);
  }

  /** A token returned while the input may grow does not change when bytes are appended. */
  lemma TokenStable(s: seq<Byte>, more: seq<Byte>, growing: bool)
    requires |s| > 0 && NextToken(s, true).Some?
    ensures NextToken(s + more, growing) == NextToken(s, true)
  {
    if Width(s[0]) > 0 {
      RunStable(s, more, 1);
    }
  }

  lemma {:induction false} RunStable(s: seq<Byte>, more: seq<Byte>, n: nat)
    requires |s| > 0 && ValidRun(s, n) && (RunLength(s, n) == Width(s[0]) || RunLength(s, n) < |s|)
    ensures ValidRun(s + more, n) && RunLength(s + more, n) == RunLength(s, n)
    ensures RunLength(s, n) == Width(s[0]) ==> Decode(s + more) == Decode(s)
    decreases |s| - n
  {
    if n < Width(s[0]) && n < |s| && Follows(s[0], n, s[n]) {
      RunStable(s, more, n + 1);
    }
  }

  /** The scan of the code, with its separate loops for a cut-off and a complete window. */
  method Utf8Token(bytes: seq<Byte>, index: nat, snapshotEndsHere: bool, canGrow: bool)
    returns (t: Option<Token>)
    requires index < |bytes|
    ensures t == NextToken(bytes[index..], snapshotEndsHere && canGrow)
  {
    var first := bytes[index];
    if first <= 0x7F { return Some(Token(1, first as char)); }
    var width := 0;
    if 0xC2 <= first <= 0xDF { width := 2; }
    else if 0xE0 <= first <= 0xEF { width := 3; }
    else if 0xF0 <= first <= 0xF4 { width := 4; }
    else { return Some(Token(1, REPLACEMENT)); }
    ghost var s := bytes[index..];
    var available := |bytes| - index;
    if available < width {
      for offset := 1 to available
        invariant ValidRun(s, offset) && RunLength(s, 1) == RunLength(s, offset)
      {
        if !Follows(first, offset, bytes[index + offset]) { return Some(Token(offset, REPLACEMENT)); }
      }
      if snapshotEndsHere && canGrow { return None; }
      return Some(Token(available, REPLACEMENT));
    }
    for offset := 1 to width
      invariant ValidRun(s, offset) && RunLength(s, 1) == RunLength(s, offset)
    {
      if !Follows(first, offset, bytes[index + offset]) { return Some(Token(offset, REPLACEMENT)); }
    }
    return Some(Token(width, Decode(bytes[index..])));
  }
}
