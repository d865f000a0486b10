/**
 The closure receipt of src/output-capture.ts: its one canonical text, and the strict parser. The
 program parses any JSON and then demands that printing the result gives the same bytes; here that
 is a parser of the canonical form, proved to be exactly the inverse of printing.
 */
module ClosureReceipt {
  import opened Wrappers
  import opened Json
  import opened CaptureTypes

  datatype Reason = Eof | Cutover | CaptureError

  datatype Receipt = Receipt(
    stream: CaptureStream, retained: nat, truncated: bool, incomplete: bool, openAtCutover: bool,
    reason: Reason, raw: Identity)

  const RECEIPT_LIMIT := 512
  const MAX_SAFE_INTEGER := 9_007_199_254_740_991

  function ReasonName(r: Reason): string {
    match r case Eof => "eof" case Cutover => "cutover" case CaptureError => "capture_error"
  }

  const HEAD := "{\"version\":1,\"stream\":\""
  const RETAINED := "\",\"retainedBytes\":"
  const TRUNCATED := ",\"truncated\":"
  const INCOMPLETE := ",\"incomplete\":"
  const OPEN := ",\"openAtCutover\":"
  const REASON := ",\"reason\":\""
  const DEV := "\",\"rawDev\":"
  const INO := ",\"rawIno\":"
  const END := "}"

  function PrintIdentity(id: Identity): string {
    DEV + (Decimal(id.dev) + (INO + (Decimal(id.ino) + END)))
  }

  function PrintFlags(r: Receipt): string {
    TRUNCATED + (Boolean(r.truncated) + (INCOMPLETE + (Boolean(r.incomplete) + (OPEN + (Boolean(r.openAtCutover)
    + (REASON + (ReasonName(r.reason) + PrintIdentity(r.raw))))))))
  }

  function Print(r: Receipt): string {
    HEAD + (StreamName(r.stream) + (RETAINED + (Decimal(r.retained) + PrintFlags(r))))
  }

  /** The rules that tie reason, flags and size together. */
  predicate Coherent(r: Receipt) {
    && (r.reason.Eof? ==> !r.incomplete && !r.openAtCutover)
    && (r.reason.Cutover? ==> r.incomplete && r.openAtCutover)
    && (r.reason.CaptureError? ==> r.incomplete)
    && (r.truncated ==> r.retained == CAPTURE_LIMIT || r.reason.CaptureError?)
  }

  predicate Bounded(r: Receipt) {
    r.retained <= CAPTURE_LIMIT && r.raw.dev <= MAX_SAFE_INTEGER && r.raw.ino <= MAX_SAFE_INTEGER
  }

  // ---------------------------------------------------------------- parsing

  datatype Parsed<T> = Parsed(value: T, rest: string)

  function Expect(s: string, literal: string): Option<string> {
    if literal <= s then Some(s[|literal|..]) else None
  }

  predicate IsDigit(c: char) {
    '0' <= c <= '9'
  }

  function DigitRun(s: string): (n: nat)
    ensures n <= |s| && forall i :: 0 <= i < n ==> IsDigit(s[i])
    ensures n < |s| ==> !IsDigit(s[n])
  {
    if s == "" || !IsDigit(s[0]) then 0 else 1 + DigitRun(s[1..])
  }

  function DigitValue(c: char): nat
    requires IsDigit(c)
  {
    c as int - '0' as int
  }

  function NumberOf(digits: string): nat
    requires forall i :: 0 <= i < |digits| ==> IsDigit(digits[i])
  {
    if digits == "" then 0
    else NumberOf(digits[..|digits| - 1]) * 10 + DigitValue(digits[|digits| - 1])
  }

  /** A JSON natural number: digits without a leading zero. */
  function ParseNumber(s: string): Option<Parsed<nat>> {
    var n := DigitRun(s);
    if n == 0 || (n > 1 && s[0] == '0') then None else Some(Parsed(NumberOf(s[..n]), s[n..]))
  }

  function ParseBoolean(s: string): Option<Parsed<bool>> {
    if "true" <= s then Some(Parsed(true, s[4..]))
    else if "false" <= s then Some(Parsed(false, s[5..]))
    else None
  }

  function ParseStream(s: string): Option<Parsed<CaptureStream>> {
    if "stdout" <= s then Some(Parsed(Stdout, s[6..]))
    else if "stderr" <= s then Some(Parsed(Stderr, s[6..]))
    else None
  }

  function ParseReason(s: string): Option<Parsed<Reason>> {
    if "eof" <= s then Some(Parsed(Eof, s[3..]))
    else if "cutover" <= s then Some(Parsed(Cutover, s[7..]))
    else if "capture_error" <= s then Some(Parsed(CaptureError, s[13..]))
    else None
  }

  function ParseIdentity(s: string): Option<Identity> {
    var s1 :- Expect(s, DEV);
    var dev :- ParseNumber(s1);
    var s2 :- Expect(dev.rest, INO);
    var ino :- ParseNumber(s2);
    if ino.rest == END then Some(Identity(dev.value, ino.value)) else None
  }

  function ParseFlags(stream: CaptureStream, retained: nat, s: string): Option<Receipt> {
    var s1 :- Expect(s, TRUNCATED);
    var truncated :- ParseBoolean(s1);
    var s2 :- Expect(truncated.rest, INCOMPLETE);
    var incomplete :- ParseBoolean(s2);
    var s3 :- Expect(incomplete.rest, OPEN);
    var open :- ParseBoolean(s3);
    var s4 :- Expect(open.rest, REASON);
    var reason :- ParseReason(s4);
    var raw :- ParseIdentity(reason.rest);
    Some(Receipt(stream, retained, truncated.value, incomplete.value, open.value, reason.value, raw))
  }

  function ParseText(s: string): Option<Receipt> {
    var s1 :- Expect(s, HEAD);
    var stream :- ParseStream(s1);
    var s2 :- Expect(stream.rest, RETAINED);
    var retained :- ParseNumber(s2);
    ParseFlags(stream.value, retained.value, retained.rest)
  }

  /** The strict bounded parser shared by writer and reader. */
  function Parse(s: string, stream: CaptureStream): Option<Receipt> {
    if |s| > RECEIPT_LIMIT then None
    else
      var r :- ParseText(s);
      if Bounded(r) && r.stream == stream && Coherent(r) then Some(r) else None
  }

  // ---------------------------------------------------------------- parsing undoes printing

  lemma ExpectPrinted(literal: string, rest: string)
    ensures Expect(literal + rest, literal) == Some(rest)
  {
    assert (literal + rest)[|literal|..] == rest;
  }

  lemma ExpectedIsPrinted(s: string, literal: string)
    ensures Expect(s, literal).Some? ==> s == literal + Expect(s, literal).value
  {
  }

  lemma DigitIsDigit(d: nat)
    requires d < 10
    ensures IsDigit(Digit(d)) && DigitValue(Digit(d)) == d
  {
  }

  lemma ZeroDigit()
    ensures IsDigit('0') && DigitValue('0') == 0
  {
  }

  lemma {:induction false} DecimalIsDigits(n: nat)
    ensures var d := Decimal(n);
            && (forall i :: 0 <= i < |d| ==> IsDigit(d[i]))
            && NumberOf(d) == n
            && (d[0] == '0' ==> n == 0)
  {
    DigitIsDigit(n % 10);
    hide Digit, IsDigit, DigitValue;
    if n >= 10 {
      DecimalIsDigits(n / 10);
      assert Decimal(n)[..|Decimal(n)| - 1] == Decimal(n / 10);
    } else {
      assert Decimal(n) == [Digit(n)] && NumberOf([]) == 0 && Decimal(n)[..0] == [];
      assert Digit(n) == '0' ==> DigitValue(Digit(n)) == 0 by {
        DigitIsDigit(n);
        ZeroDigit();
      }
    }
  }

  lemma {:induction false} RunOfDigits(digits: string, rest: string)
    requires forall i :: 0 <= i < |digits| ==> IsDigit(digits[i])
    requires rest != "" ==> !IsDigit(rest[0])
    ensures DigitRun(digits + rest) == |digits|
  {
    if digits == "" {
      assert digits + rest == rest;
    } else {
      assert (digits + rest)[1..] == digits[1..] + rest;
      RunOfDigits(digits[1..], rest);
    }
  }

  lemma NumberPrinted(n: nat, rest: string)
    requires rest != "" ==> !IsDigit(rest[0])
    ensures ParseNumber(Decimal(n) + rest) == Some(Parsed(n, rest))
  {
    var d := Decimal(n);
    DecimalIsDigits(n);
    RunOfDigits(d, rest);
    assert (d + rest)[..|d|] == d && (d + rest)[|d|..] == rest;
    assert |d| > 1 ==> n >= 10;
  }

  lemma DigitOfValue(c: char)
    requires IsDigit(c)
    ensures DigitValue(c) < 10 && Digit(DigitValue(c)) == c
  {
  }

  lemma {:induction false} DigitsAreDecimal(digits: string)
    requires digits != "" && forall i :: 0 <= i < |digits| ==> IsDigit(digits[i])
    requires |digits| > 1 ==> digits[0] != '0'
    ensures Decimal(NumberOf(digits)) == digits
    ensures digits[0] != '0' ==> NumberOf(digits) > 0
  {
    var init, last := digits[..|digits| - 1], digits[|digits| - 1];
    assert digits == init + [last];
    assert Digit(DigitValue(last)) == last by {
      DigitOfValue(last);
    }
    assert digits[0] != '0' && init == "" ==> DigitValue(last) > 0;
    hide Digit, IsDigit, DigitValue;
    if init != "" {
      DigitsAreDecimal(init);
      assert NumberOf(digits) / 10 == NumberOf(init);
    }
  }

  lemma ParsedNumberIsPrinted(s: string)
    ensures ParseNumber(s).Some? ==> s == Decimal(ParseNumber(s).value.value) + ParseNumber(s).value.rest
  {
    if ParseNumber(s).Some? {
      DigitsAreDecimal(s[..DigitRun(s)]);
    }
  }

  lemma WordsPrinted(b: bool, stream: CaptureStream, reason: Reason, rest: string)
    ensures ParseBoolean(Boolean(b) + rest) == Some(Parsed(b, rest))
    ensures ParseStream(StreamName(stream) + rest) == Some(Parsed(stream, rest))
    ensures ParseReason(ReasonName(reason) + rest) == Some(Parsed(reason, rest))
  {
    assert (Boolean(b) + rest)[|Boolean(b)|..] == rest;
    assert (StreamName(stream) + rest)[|StreamName(stream)|..] == rest;
    assert (ReasonName(reason) + rest)[|ReasonName(reason)|..] == rest;
    assert (Boolean(b) + rest)[0] == Boolean(b)[0];
    assert (StreamName(stream) + rest)[3] == StreamName(stream)[3];
    assert (ReasonName(reason) + rest)[0] == ReasonName(reason)[0];
    assert (ReasonName(reason) + rest)[1] == ReasonName(reason)[1];
  }

  lemma FrontAndRest(word: string, s: string)
    requires word <= s
    ensures s == word + s[|word|..]
  {
  }

  lemma ParsedWordsArePrinted(s: string)
    ensures ParseBoolean(s).Some? ==> s == Boolean(ParseBoolean(s).value.value) + ParseBoolean(s).value.rest
    ensures ParseStream(s).Some? ==> s == StreamName(ParseStream(s).value.value) + ParseStream(s).value.rest
    ensures ParseReason(s).Some? ==> s == ReasonName(ParseReason(s).value.value) + ParseReason(s).value.rest
  {
    if ParseBoolean(s).Some? {
      FrontAndRest(Boolean(ParseBoolean(s).value.value), s);
    }
    if ParseStream(s).Some? {
      FrontAndRest(StreamName(ParseStream(s).value.value), s);
    }
    if ParseReason(s).Some? {
      FrontAndRest(ReasonName(ParseReason(s).value.value), s);
    }
  }

  lemma IdentityPrinted(id: Identity)
    ensures ParseIdentity(PrintIdentity(id)) == Some(id)
  {
    var tail := INO + (Decimal(id.ino) + END);
    ExpectPrinted(DEV, Decimal(id.dev) + tail);
    NumberPrinted(id.dev, tail);
    ExpectPrinted(INO, Decimal(id.ino) + END);
    NumberPrinted(id.ino, END);
    hide Expect, ParseNumber, Decimal;
  }

  lemma ParsedIdentityIsPrinted(s: string)
    ensures ParseIdentity(s).Some? ==> s == PrintIdentity(ParseIdentity(s).value)
  {
    if ParseIdentity(s).Some? {
      ExpectedIsPrinted(s, DEV);
      var s1 := Expect(s, DEV).value;
      ParsedNumberIsPrinted(s1);
      var dev := ParseNumber(s1).value;
      ExpectedIsPrinted(dev.rest, INO);
      ParsedNumberIsPrinted(Expect(dev.rest, INO).value);
      hide Expect, ParseNumber, Decimal;
    }
  }

  lemma FlagsPrinted(r: Receipt)
    ensures ParseFlags(r.stream, r.retained, PrintFlags(r)) == Some(r)
  {
    var s4 := ReasonName(r.reason) + PrintIdentity(r.raw);
    var s3 := Boolean(r.openAtCutover) + (REASON + s4);
    var s2 := Boolean(r.incomplete) + (OPEN + s3);
    var s1 := Boolean(r.truncated) + (INCOMPLETE + s2);
    ExpectPrinted(TRUNCATED, s1);
    ExpectPrinted(INCOMPLETE, s2);
    ExpectPrinted(OPEN, s3);
    ExpectPrinted(REASON, s4);
    WordsPrinted(r.truncated, r.stream, r.reason, INCOMPLETE + s2);
    WordsPrinted(r.incomplete, r.stream, r.reason, OPEN + s3);
    WordsPrinted(r.openAtCutover, r.stream, r.reason, REASON + s4);
    WordsPrinted(true, r.stream, r.reason, PrintIdentity(r.raw));
    IdentityPrinted(r.raw);
    hide Expect, ParseBoolean, ParseReason, ParseStream, ParseIdentity, PrintIdentity, Boolean, ReasonName;
  }

  lemma ParsedFlagsArePrinted(stream: CaptureStream, retained: nat, s: string)
    ensures var r := ParseFlags(stream, retained, s);
            r.Some? ==> s == PrintFlags(r.value) && r.value.stream == stream && r.value.retained == retained
  {
    if ParseFlags(stream, retained, s).Some? {
      ExpectedIsPrinted(s, TRUNCATED);
      var s1 := Expect(s, TRUNCATED).value;
      ParsedWordsArePrinted(s1);
      var b1 := ParseBoolean(s1).value;
      ExpectedIsPrinted(b1.rest, INCOMPLETE);
      var s2 := Expect(b1.rest, INCOMPLETE).value;
      ParsedWordsArePrinted(s2);
      var b2 := ParseBoolean(s2).value;
      ExpectedIsPrinted(b2.rest, OPEN);
      var s3 := Expect(b2.rest, OPEN).value;
      ParsedWordsArePrinted(s3);
      var b3 := ParseBoolean(s3).value;
      ExpectedIsPrinted(b3.rest, REASON);
      var s4 := Expect(b3.rest, REASON).value;
      ParsedWordsArePrinted(s4);
      ParsedIdentityIsPrinted(ParseReason(s4).value.rest);
      hide Expect, ParseBoolean, ParseReason, ParseStream, ParseIdentity, PrintIdentity, Boolean, ReasonName;
    }
  }

  lemma TextPrinted(r: Receipt)
    ensures ParseText(Print(r)) == Some(r)
  {
    var s2 := Decimal(r.retained) + PrintFlags(r);
    var s1 := StreamName(r.stream) + (RETAINED + s2);
    ExpectPrinted(HEAD, s1);
    WordsPrinted(true, r.stream, r.reason, RETAINED + s2);
    ExpectPrinted(RETAINED, s2);
    NumberPrinted(r.retained, PrintFlags(r));
    FlagsPrinted(r);
    hide Expect, ParseBoolean, ParseReason, ParseStream, ParseFlags, ParseNumber, PrintFlags, Decimal, StreamName;
  }

  lemma ParsedTextIsPrinted(s: string)
    ensures ParseText(s).Some? ==> s == Print(ParseText(s).value)
  {
    if ParseText(s).Some? {
      ExpectedIsPrinted(s, HEAD);
      var s1 := Expect(s, HEAD).value;
      ParsedWordsArePrinted(s1);
      var stream := ParseStream(s1).value;
      ExpectedIsPrinted(stream.rest, RETAINED);
      var s2 := Expect(stream.rest, RETAINED).value;
      ParsedNumberIsPrinted(s2);
      var retained := ParseNumber(s2).value;
      ParsedFlagsArePrinted(stream.value, retained.value, retained.rest);
      hide Expect, ParseBoolean, ParseReason, ParseStream, ParseFlags, ParseNumber, PrintFlags, Decimal, StreamName;
    }
  }

  /** A receipt within the number ranges always fits the size limit. */
  lemma PrintedFits(r: Receipt)
    requires Bounded(r)
    ensures |Print(r)| <= 512
  {
    assert PowerOfTen(7) == 10_000_000;
    assert PowerOfTen(16) == 1_000_000_000 * PowerOfTen(7);
    DecimalLength(r.retained, 7);
    DecimalLength(r.raw.dev, 16);
    DecimalLength(r.raw.ino, 16);
    hide Decimal, PowerOfTen;
    assert |PrintIdentity(r.raw)| <= 60;
    assert |PrintFlags(r)| <= 200;
  }

  /** The parser accepts exactly the canonical text of every coherent, bounded receipt of the stream. */
  lemma ParseInvertsPrint(s: string, stream: CaptureStream, r: Receipt)
    ensures Parse(s, stream) == Some(r) <==> s == Print(r) && r.stream == stream && Bounded(r) && Coherent(r)
  {
    TextPrinted(r);
    ParsedTextIsPrinted(s);
    if Bounded(r) {
      PrintedFits(r);
    }
    hide Print, ParseText, Coherent, Bounded;
  }
}
