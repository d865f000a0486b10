/**
 Reading JSON strings by the grammar of section 7 of RFC 8259. It is the reference for the printer:
 what was printed reads back as it was, in the form that section allows to be shortest.
 */
module JsonReader {
  import opened Wrappers
  import opened Sequences
  import opened Json

  /** The value of a hexadecimal digit in either case. */
  function HexValue(c: char): (v: Option<nat>)
    ensures v.Some? ==> v.value < 16
  {
    if '0' <= c <= '9' then Some(c as int - '0' as int)
    else if 'a' <= c <= 'f' then Some(10 + (c as int - 'a' as int))
    else if 'A' <= c <= 'F' then Some(10 + (c as int - 'A' as int))
    else None
  }

  /** The number that hexadecimal digits spell. */
  function HexNumber(s: string): Option<nat> {
    if s == "" then Some(0)
    else
      var high :- HexNumber(s[..|s| - 1]);
      var low :- HexValue(s[|s| - 1]);
      Some(16 * high + low)
  }

  function ShortEscape(c: char): Option<char> {
    match c
    case '\"' => Some('\"')
    case '\\' => Some('\\')
    case '/' => Some('/')
    case 'b' => Some('\U{08}')
    case 'f' => Some('\U{0C}')
    case 'n' => Some('\n')
    case 'r' => Some('\r')
    case 't' => Some('\t')
    case _ => None
  }

  datatype Read = Read(c: char, length: nat)

  /** The character at the front of the inside of a string, and how many characters spell it. */
  function ReadChar(s: string): (r: Option<Read>)
    ensures r.Some? ==> 1 <= r.value.length <= |s|
  {
    if s == "" || s[0] == '\"' || s[0] as int < 0x20 then None
    else if s[0] != '\\' then Some(Read(s[0], 1))
    else if |s| < 2 then None
    else if s[1] != 'u' then (var c :- ShortEscape(s[1]); Some(Read(c, 2)))
    else if |s| < 6 then None
    else
      var v :- HexNumber(s[2..6]);
      if v < 0xD800 || 0xE000 <= v < 0x10000 then Some(Read(v as char, 6)) else None
  }

  /** The text that the inside of a string stands for. */
  function Unescape(s: string): Option<string>
    decreases |s|
  {
    if s == "" then Some("")
    else
      var first :- ReadChar(s);
      var rest :- Unescape(s[first.length..]);
      Some([first.c] + rest)
  }

  /** The characters that section 7 does not allow to stand for themselves. */
  predicate MustEscape(c: char) {
    c == '\"' || c == '\\' || c as int < 0x20
  }

  predicate HasShortEscape(c: char) {
    c == '\"' || c == '\\' || c == '\U{08}' || c == '\U{0C}' || c == '\n' || c == '\r' || c == '\t'
  }

  lemma DigitReads(d: nat)
    requires d < 16
    ensures HexValue(Digit(d)) == Some(d)
    ensures '0' <= Digit(d) <= '9' || 'a' <= Digit(d) <= 'f'
  {
  }

  lemma TwoDigits(a: char, b: char)
    requires HexValue(a).Some? && HexValue(b).Some?
    ensures HexNumber(['0', '0', a, b]) == Some(16 * HexValue(a).value + HexValue(b).value)
  {
    var s := ['0', '0', a, b];
    hide HexValue;
    assert HexValue('0') == Some(0) by { DigitReads(0); }
    assert ['0'][..0] == "" && HexNumber(['0']) == Some(0);
    assert ['0', '0'][..1] == ['0'] && HexNumber(['0', '0']) == Some(0);
    assert ['0', '0', a][..2] == ['0', '0'] && HexNumber(['0', '0', a]) == HexValue(a);
    assert s[..3] == ['0', '0', a];
  }

  /** A printed character reads back as itself, whatever follows it. */
  lemma CharReadsBack(c: char, rest: string)
    ensures ReadChar(EscapeChar(c) + rest) == Some(Read(c, |EscapeChar(c)|))
  {
    var s := EscapeChar(c) + rest;
    if c as int < 0x20 && !HasShortEscape(c) {
      DigitReads(c as int / 16);
      DigitReads(c as int % 16);
      var a, b := Digit(c as int / 16), Digit(c as int % 16);
      TwoDigits(a, b);
      assert s[2..6] == ['0', '0', a, b];
      hide Digit, HexNumber, HexValue;
    }
  }

  /** A character is escaped only if it must be, and then in two characters where there is such a form. */
  lemma EscapesAreShortest(c: char)
    ensures |EscapeChar(c)| == if !MustEscape(c) then 1 else if HasShortEscape(c) then 2 else 6
    ensures !MustEscape(c) ==> EscapeChar(c) == [c]
    ensures forall i :: 0 <= i < |EscapeChar(c)| ==> !(EscapeChar(c)[i] as int < 0x20) && (MustEscape(c) ==> !('A' <= EscapeChar(c)[i] <= 'F'))
  {
    if MustEscape(c) && !HasShortEscape(c) {
      DigitReads(c as int / 16);
      DigitReads(c as int % 16);
      hide Digit, HexValue;
    }
  }

  lemma EscapeFirst(c: char, rest: string)
    ensures Escape([c] + rest) == EscapeChar(c) + Escape(rest)
  {
    FlatMapConcat(EscapeChar, [c], rest);
    assert FlatMap(EscapeChar, [c]) == FlatMap(EscapeChar, [c][..0]) + EscapeChar(c);
  }

  lemma ReadsFirst(text: string, rest: string, first: Read)
    requires text != "" && ReadChar(text) == Some(first) && Unescape(text[first.length..]) == Some(rest)
    ensures Unescape(text) == Some([first.c] + rest)
  {
    hide ReadChar;
  }

  /** A printed text reads back as itself. */
  lemma {:induction false} TextReadsBack(s: string)
    ensures Unescape(Escape(s)) == Some(s)
  {
    if s != "" {
      var c, rest := s[0], s[1..];
      assert s == [c] + rest;
      TextReadsBack(rest);
      EscapeFirst(c, rest);
      CharReadsBack(c, Escape(rest));
      hide EscapeChar, ReadChar, Escape, Unescape;
      assert Escape(s)[|EscapeChar(c)|..] == Escape(rest);
      ReadsFirst(Escape(s), rest, Read(c, |EscapeChar(c)|));
    }
  }
}
